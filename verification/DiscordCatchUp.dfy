/**
 Discord's catch-up: history is read forward, page after page from a message id, and a message
 whose thread cannot be looked up yet is kept below a floor until it can.

 What is owed is what a process has read: every message handed on, from a history or live, every
 message the platform held when it answered a page, above the id the page was asked from, and every
 live message put below a floor. A new process goes on from the markers on disk.
 */
module DiscordCatchUp {
  import opened Collections

  datatype Post = Post(channel: nat, id: nat)

  datatype Mark = Mark(post: Post, thread: bool)

  /** What the platform says a channel is. */
  datatype Record = Denied | ThreadOf(parent: nat) | Other

  /** Raised may pass with time; Fatal is raised for good. */
  datatype Lookup = Raised | Fatal | NoAnswer | Found(record: Record)

  datatype Rows = Error | Silent | Refused | Page(posts: seq<Post>)

  /** Channels, known threads, and the floors of threads whose parent is not known yet. */
  datatype Markers = Markers(channels: map<nat, nat>, threads: map<nat, nat>, unresolved: map<nat, nat>)

  /** The stored place of a channel: its marker, a thread's marker, or a floor. */
  function Place(markers: Markers, watched: set<nat>, c: nat): Option<nat> {
    if c in watched then At(markers.channels, c)
    else if c in markers.threads then Some(markers.threads[c]) else At(markers.unresolved, c)
  }

  predicate NotPassed(markers: Markers, watched: set<nat>, p: Post) {
    var place := Place(markers, watched, p.channel);
    place.Some? ==> place.value < p.id
  }

  /** The message's channel is caught up from these markers, and no place has passed it. */
  predicate Reaches(markers: Markers, watched: set<nat>, p: Post) {
    (p.channel in watched || Place(markers, watched, p.channel).Some?) && NotPassed(markers, watched, p)
  }

  /** A catch-up from these markers reads it, when a first-run window begins here. */
  predicate Reached(markers: Markers, watched: set<nat>, windowStart: nat, p: Post) {
    var place := Place(markers, watched, p.channel);
    if place.Some? then place.value < p.id else p.channel in watched && windowStart < p.id
  }

  function At(m: map<nat, nat>, c: nat): Option<nat> {
    if c in m then Some(m[c]) else None
  }

  /** What can excuse the adapter from messages it owes. */
  datatype Event =
    | Denial(channel: nat)                    // the platform denied this channel
    | NoThread(channel: nat)                  // a floor turned out to be no thread's
    | Cap(lost: set<nat>)                     // threads lost their markers to the cap
    | FirstWindow(channel: nat, start: nat)   // a channel without a marker was read from here
    // a new process began with these markers on disk
    | Restart(watched: set<nat>, markers: Markers, windowStart: nat)
    // a process whose first connect failed, and left its socket open, moved its markers to these
    | Unlisted(watched: set<nat>, markers: Markers)

  predicate Excuses(e: Event, p: Post) {
    match e
    case Denial(c) => p.channel == c
    case NoThread(c) => p.channel == c
    case Cap(lost) => p.channel in lost
    case FirstWindow(c, start) => p.channel == c && p.id <= start
    case Restart(watched, markers, start) => !Reached(markers, watched, start, p)
    case Unlisted(watched, markers) => !Reaches(markers, watched, p)
  }

  /** What a message is excused by covers it, and happened after it fell due. */
  ghost predicate Justified(due: map<Post, nat>, excused: map<Post, nat>, events: seq<Event>) {
    && (forall p :: p in due ==> due[p] <= |events|)
    && (forall p :: p in excused ==> p in due && due[p] <= excused[p] < |events| && Excuses(events[excused[p]], p))
  }

  lemma ExcuseMore(due: map<Post, nat>, excused: map<Post, nat>, events: seq<Event>, e: Event, gone: set<Post>)
    requires Justified(due, excused, events)
    requires forall p :: p in gone ==> p in due && Excuses(e, p)
    ensures Justified(due, excused + map p | p in gone :: |events|, events + [e])
  {
    hide Excuses;
  }

  function Without(excused: map<Post, nat>, gone: set<Post>, n: nat): map<Post, nat> {
    excused + map p | p in gone :: n
  }

  lemma GiveUpMore(due: map<Post, nat>, excused: map<Post, nat>, events: seq<Event>, e: Event, gone: set<Post>)
    requires Justified(due, excused, events) && gone !! excused.Keys
    requires forall p :: p in gone ==> p in due && Excuses(e, p)
    ensures var next := Without(excused, gone, |events|);
            && Justified(due, next, events + [e]) && Kept(excused, next) && next.Keys == excused.Keys + gone
            && forall p :: p in next <==> p in excused || p in gone
  {
    ExcuseMore(due, excused, events, e, gone);
  }

  /** What has happened, fallen due and been settled so far. */
  datatype Log = Log(events: seq<Event>, due: map<Post, nat>, settled: set<Post>)

  ghost predicate Continues(earlier: Log, later: Log) {
    && earlier.events <= later.events && earlier.settled <= later.settled
    && forall p :: p in earlier.due ==> p in later.due && earlier.due[p] <= later.due[p]
  }

  lemma ContinuesOn(a: Log, b: Log, c: Log)
    requires Continues(a, b) && Continues(b, c)
    ensures Continues(a, c)
  {
  }

  /** Why a channel was not read, or one call to read it; answered is false where the call failed. */
  datatype Ask = Waits(channel: nat) | Looks(channel: nat, answered: bool) | Reads(channel: nat, answered: bool)

  predicate Fails(a: Ask, c: nat) {
    a == Waits(c) || a == Looks(c, false) || a == Reads(c, false)
  }

  /** How many pages of this channel were answered from some moment on. */
  function PagesRead(asks: seq<Ask>, from: nat, c: nat): nat {
    if |asks| <= from then 0
    else PagesRead(asks[..|asks| - 1], from, c) + if asks[|asks| - 1] == Reads(c, true) then 1 else 0
  }

  lemma {:induction false} PagesMore(asks: seq<Ask>, later: seq<Ask>, from: nat, c: nat)
    requires asks <= later
    ensures PagesRead(asks, from, c) <= PagesRead(later, from, c)
    decreases |later|
  {
    if asks != later {
      PagesMore(asks, later[..|later| - 1], from, c);
    }
  }

  lemma {:induction false} PagesEarlier(asks: seq<Ask>, from: nat, later: nat, c: nat)
    requires from <= later
    ensures PagesRead(asks, later, c) <= PagesRead(asks, from, c)
    decreases |asks|
  {
    if |asks| > from {
      PagesEarlier(asks[..|asks| - 1], from, later, c);
    }
  }

  lemma OneMorePage(asks: seq<Ask>, a: Ask, from: nat, c: nat)
    requires from <= |asks|
    ensures PagesRead(asks + [a], from, c) == PagesRead(asks, from, c) + if a == Reads(c, true) then 1 else 0
  {
    assert (asks + [a])[..|asks|] == asks;
  }

  const MAX_PAGES := 10
  const PAGE := 100
  const MAX_THREADS := 200

  // ---- pages ----

  predicate Rising(posts: seq<Post>) {
    SortedBy(posts, (p: Post) => p.id)
  }

  /** A channel's messages after an id, oldest first. */
  function After(posted: seq<Post>, channel: nat, after: nat): (r: seq<Post>)
    ensures Rising(r)
    ensures forall p :: p in r <==> p in posted && p.channel == channel && p.id > after
  {
    if posted == [] then []
    else
      var rest := After(posted[1..], channel, after);
      assert posted == [posted[0]] + posted[1..];
      if posted[0].channel == channel && posted[0].id > after then Insert(posted[0], rest, (p: Post) => p.id) else rest
  }

  /** The platform's page: the oldest hundred. */
  function FirstPage(posts: seq<Post>): (r: seq<Post>)
    requires Rising(posts)
    ensures r <= posts && forall p :: p in r ==> p in posts
    ensures |r| < PAGE ==> r == posts
    ensures r != [] ==> forall p :: p in posts && p !in r ==> p.id >= r[|r| - 1].id
  {
    if |posts| <= PAGE then posts
    else
      assert posts == posts[..PAGE] + posts[PAGE..];
      posts[..PAGE]
  }

  /** What a page says of a channel's messages after an id. */
  ghost predicate Splits(rows: seq<Post>, posted: seq<Post>, c: nat, after: nat) {
    && (forall p :: p in rows ==> p.channel == c && p.id > after && p in posted)
    && (|rows| < PAGE ==> forall p :: p in posted && p.channel == c && p.id > after ==> p in rows)
    && (rows != [] ==> rows[|rows| - 1].id > after && RestAbove(rows, posted, c, after, rows[|rows| - 1].id))
  }

  ghost predicate RestAbove(rows: seq<Post>, posted: seq<Post>, c: nat, after: nat, last: nat) {
    forall p :: p in posted && p.channel == c && p.id > after && p !in rows ==> p.id > last
  }

  ghost predicate Lists(all: seq<Post>, posted: seq<Post>, c: nat, after: nat) {
    forall p :: p in all <==> p in posted && p.channel == c && p.id > after
  }

  lemma PageSplits(posted: seq<Post>, c: nat, after: nat)
    ensures Splits(FirstPage(After(posted, c, after)), posted, c, after)
  {
    hide After, FirstPage, Rising, Elements, Splits;
    var all := After(posted, c, after);
    var rows := FirstPage(all);
    assert Lists(all, posted, c, after);
    hide Lists;
    AllSplits(all, rows, posted, c, after);
  }

  lemma AllSplits(all: seq<Post>, rows: seq<Post>, posted: seq<Post>, c: nat, after: nat)
    requires Lists(all, posted, c, after) && (forall p :: p in rows ==> p in all) && (|rows| < PAGE ==> rows == all)
    requires rows != [] ==> forall p :: p in all && p !in rows ==> p.id >= rows[|rows| - 1].id
    ensures Splits(rows, posted, c, after)
  {
    if rows != [] {
      assert rows[|rows| - 1] in rows;
      LastOfPage(all, c, after, rows);
    }
  }

  lemma LastOfPage(all: seq<Post>, c: nat, after: nat, rows: seq<Post>)
    requires rows != [] && rows[|rows| - 1].channel == c
    requires forall p :: p in all && p !in rows ==> p.channel == c && p.id >= rows[|rows| - 1].id
    ensures forall p :: p in all && p !in rows ==> p.id > rows[|rows| - 1].id
  {
    var last := rows[|rows| - 1];
    forall p | p in all && p !in rows ensures p.id > last.id {
      SamePost(p, last);
      assert last in rows;
    }
  }

  lemma SamePost(p: Post, q: Post)
    ensures p.channel == q.channel && p.id == q.id ==> p == q
  {
  }

  // ---- markers ----

  function Max(current: Option<nat>, candidate: nat): nat {
    if current.Some? && candidate <= current.value then current.value else candidate
  }

  function Bump(markers: Markers, mark: Mark): Markers {
    var c := mark.post.channel;
    if mark.thread then markers.(threads := markers.threads[c := Max(At(markers.threads, c), mark.post.id)])
    else markers.(channels := markers.channels[c := Max(At(markers.channels, c), mark.post.id)])
  }

  /** A marker that is new or moved is of a channel that is not pending, forward, and at a settled message. */
  ghost predicate MovedOn(before: map<nat, nat>, after: map<nat, nat>, pending: set<nat>, settled: set<Post>) {
    forall c :: c in after && !(c in before && after[c] == before[c]) ==>
      c !in pending && Post(c, after[c]) in settled && (c in before ==> after[c] > before[c])
  }

  ghost predicate Moved(before: map<nat, nat>, after: map<nat, nat>, pending: set<nat>, settled: set<Post>) {
    before.Keys <= after.Keys && MovedOn(before, after, pending, settled)
  }

  lemma CapMovesNone(
      before: map<nat, nat>, next: map<nat, nat>, kept: map<nat, nat>,
      lost: set<nat>, pending: set<nat>, settled: set<Post>)
    requires Moved(before, next, pending, settled) && NewestKept(next, kept, lost)
    ensures MovedOn(before, kept, pending, settled)
    ensures forall c :: c in before && c !in lost ==> c in kept
    ensures lost == {} ==> before.Keys <= kept.Keys
  {
  }

  ghost predicate Covers(markers: Markers, mark: Mark) {
    var c := mark.post.channel;
    var m := if mark.thread then markers.threads else markers.channels;
    c in m && m[c] >= mark.post.id
  }

  lemma MovesOn(before: map<nat, nat>, after: map<nat, nat>, pending: set<nat>, settled: set<Post>, p: Post)
    requires Moved(before, after, pending, settled) && p.channel !in pending && p in settled
    ensures Moved(before, after[p.channel := Max(At(after, p.channel), p.id)], pending, settled)
  {
    assert p == Post(p.channel, p.id);
  }

  ghost predicate NewestKept(threads: map<nat, nat>, kept: map<nat, nat>, lost: set<nat>) {
    kept == threads - lost && KeepsNewest(threads, lost)
  }

  /** The newest threads stay tracked. */
  method CapThreads(threads: map<nat, nat>) returns (kept: map<nat, nat>, ghost lost: set<nat>)
    ensures NewestKept(threads, kept, lost)
    ensures |kept.Keys| <= MAX_THREADS && (lost != {} ==> |kept.Keys| == MAX_THREADS)
  {
    var oldest := Excess(threads, MAX_THREADS);
    kept, lost := threads - oldest, oldest;
    assert kept.Keys == threads.Keys - oldest;
  }

  // ---- what a catch-up has to show since some moment ----

  datatype Moment = Moment(
    posted: seq<Post>, handed: set<Post>, pending: set<nat>, resumeAfter: map<nat, nat>, markers: Markers,
    events: seq<Event>, asks: seq<Ask>)

  /** What the platform held then of a channel's messages after one id, up to another, has been handed on. */
  ghost predicate InRange(was: Moment, now: Moment, c: nat, after: nat, upTo: Option<nat>) {
    forall p :: p in was.posted && p.channel == c && p.id > after && (upTo.Some? ==> p.id <= upTo.value) ==>
        p in now.handed
  }

  ghost predicate Since(was: Moment, now: Moment, e: Event) {
    exists i :: |was.events| <= i < |now.events| && now.events[i] == e
  }

  /** The same from the place the channel was then to be read from; a first-run window's start shows as an event. */
  ghost predicate HandedFrom(watched: set<nat>, was: Moment, now: Moment, c: nat, upTo: Option<nat>) {
    var place := Place(was.markers, watched, c);
    if c in was.resumeAfter then InRange(was, now, c, was.resumeAfter[c], upTo)
    else if place.Some? then InRange(was, now, c, place.value, upTo)
    else exists start :: Since(was, now, FirstWindow(c, start)) && InRange(was, now, c, start, upTo)
  }

  /** All that the platform held then in the channel, above its place, has been handed on; or none of it is owed. */
  ghost predicate Done(watched: set<nat>, was: Moment, now: Moment, c: nat) {
    HandedFrom(watched, was, now, c, None) || Since(was, now, Denial(c)) || Since(was, now, NoThread(c))
  }

  /** At a moment in between it was handed on up to where the run of pages stood. */
  ghost predicate OnItsWay(watched: set<nat>, was: Moment, mid: Moment, now: Moment, c: nat) {
    if c in mid.resumeAfter then HandedFrom(watched, was, now, c, Some(mid.resumeAfter[c])) else c !in was.resumeAfter
  }

  predicate SamePlace(watched: set<nat>, was: Moment, now: Moment, c: nat) {
    Place(now.markers, watched, c) == Place(was.markers, watched, c)
  }

  /** A call of the platform failed since then. */
  ghost predicate SomeFailed(was: Moment, now: Moment) {
    exists i :: |was.asks| <= i < |now.asks| && Fails(now.asks[i], now.asks[i].channel)
  }

  /**
   Since then the platform asked to wait with the channel, or did not answer, or it gave as much as is
   read at once.
   */
  ghost predicate Stuck(was: Moment, now: Moment, c: nat) {
    || (exists i :: |was.asks| <= i < |now.asks| && Fails(now.asks[i], c))
    || PagesRead(now.asks, |was.asks|, c) >= MAX_PAGES
  }

  /** Since then the channel was read to its end; or it is still pending, with nothing left out on the way. */
  ghost predicate Covered(watched: set<nat>, was: Moment, now: Moment, c: nat) {
    Done(watched, was, now, c) || (c in now.pending && OnItsWay(watched, was, now, now, c))
  }

  /** Since then the channel was read to its end, or as far as the platform let it be. */
  ghost predicate Attended(watched: set<nat>, was: Moment, now: Moment, c: nat) {
    Covered(watched, was, now, c) && (Done(watched, was, now, c) || Stuck(was, now, c))
  }

  /** Only more was posted, handed on, said and asked. */
  ghost predicate Onward(was: Moment, now: Moment) {
    was.handed <= now.handed && was.events <= now.events && was.asks <= now.asks && was.posted <= now.posted
  }

  /** And outside these channels nothing else has changed. */
  ghost predicate OnlyIn(watched: set<nat>, cs: set<nat>, was: Moment, now: Moment) {
    Onward(was, now) && forall c :: c !in cs ==>
      && (c in now.pending <==> c in was.pending) && At(now.resumeAfter, c) == At(was.resumeAfter, c)
      && Place(now.markers, watched, c) == Place(was.markers, watched, c)
  }

  lemma OnwardOn(a: Moment, b: Moment, c: Moment)
    requires Onward(a, b) && Onward(b, c)
    ensures Onward(a, c)
  {
  }

  lemma OnlyInOn(watched: set<nat>, cs: set<nat>, a: Moment, b: Moment, c: Moment)
    requires OnlyIn(watched, cs, a, b) && OnlyIn(watched, cs, b, c)
    ensures OnlyIn(watched, cs, a, c)
  {
    hide Place;
    OnwardOn(a, b, c);
  }

  lemma OnlyOne(watched: set<nat>, c: nat, was: Moment, now: Moment)
    requires Onward(was, now) && was.markers == now.markers
    requires now.pending == was.pending || now.pending == was.pending - {c} || now.pending == was.pending + {c}
    requires now.resumeAfter - {c} == was.resumeAfter - {c}
    ensures OnlyIn(watched, {c}, was, now)
  {
    hide Place;
    forall x | x != c ensures At(now.resumeAfter, x) == At(was.resumeAfter, x) {
      assert x in now.resumeAfter <==> x in now.resumeAfter - {c};
      assert x in was.resumeAfter <==> x in was.resumeAfter - {c};
      if x in now.resumeAfter { assert (now.resumeAfter - {c})[x] == (was.resumeAfter - {c})[x]; }
    }
  }

  lemma LastEvent(was: Moment, now: Moment)
    requires |was.events| < |now.events|
    ensures Since(was, now, now.events[|now.events| - 1])
  {
  }

  lemma LastAsk(was: Moment, now: Moment, c: nat)
    requires |was.asks| < |now.asks|
    ensures Fails(now.asks[|now.asks| - 1], c) ==> Stuck(was, now, c) && SomeFailed(was, now)
  {
    if Fails(now.asks[|now.asks| - 1], c) { assert now.asks[|now.asks| - 1].channel == c; }
  }

  lemma FailedEarlier(was: Moment, mid: Moment, now: Moment)
    requires Onward(was, mid) && SomeFailed(mid, now)
    ensures SomeFailed(was, now)
  {
  }

  lemma SinceEarlier(was: Moment, mid: Moment, now: Moment)
    requires Onward(was, mid)
    ensures forall e :: Since(mid, now, e) ==> Since(was, now, e)
  {
  }

  lemma SinceLater(was: Moment, mid: Moment, now: Moment)
    requires Onward(mid, now)
    ensures forall e :: Since(was, mid, e) ==> Since(was, now, e)
  {
  }

  lemma StuckEarlier(was: Moment, mid: Moment, now: Moment, c: nat)
    requires Onward(was, mid) && Stuck(mid, now, c)
    ensures Stuck(was, now, c)
  {
    PagesEarlier(now.asks, |was.asks|, |mid.asks|, c);
  }

  lemma StuckLater(was: Moment, mid: Moment, now: Moment, c: nat)
    requires Onward(mid, now) && Stuck(was, mid, c)
    ensures Stuck(was, now, c)
  {
    PagesMore(mid.asks, now.asks, |was.asks|, c);
  }

  lemma FromLater(watched: set<nat>, was: Moment, mid: Moment, now: Moment, c: nat, upTo: Option<nat>)
    requires Onward(mid, now) && HandedFrom(watched, was, mid, c, upTo)
    ensures HandedFrom(watched, was, now, c, upTo)
  {
    SinceLater(was, mid, now);
  }

  lemma DoneLater(watched: set<nat>, was: Moment, mid: Moment, now: Moment, c: nat)
    requires Onward(mid, now) && Done(watched, was, mid, c)
    ensures Done(watched, was, now, c)
  {
    SinceLater(was, mid, now);
    if HandedFrom(watched, was, mid, c, None) { FromLater(watched, was, mid, now, c, None); }
  }

  lemma NotReadYet(watched: set<nat>, was: Moment, now: Moment, c: nat)
    requires c in now.pending && At(now.resumeAfter, c) == At(was.resumeAfter, c)
    ensures Covered(watched, was, now, c)
  {
  }

  /** A read that began in between goes on where an earlier one stood. */
  lemma FromEarlier(watched: set<nat>, was: Moment, mid: Moment, now: Moment, c: nat, upTo: Option<nat>)
    requires Onward(was, mid) && OnItsWay(watched, was, mid, now, c) && HandedFrom(watched, mid, now, c, upTo)
    requires SamePlace(watched, was, mid, c)
    ensures HandedFrom(watched, was, now, c, upTo)
  {
    SinceEarlier(was, mid, now);
    assert forall after, to :: InRange(mid, now, c, after, to) ==> InRange(was, now, c, after, to);
    if c in mid.resumeAfter {
      var stood := mid.resumeAfter[c];
      assert InRange(was, now, c, stood, upTo);
      assert forall after :: InRange(was, now, c, after, Some(stood)) ==> InRange(was, now, c, after, upTo);
    }
  }

  /** A channel that was covered is read once more: it is attended to, whatever came before. */
  lemma ReadOn(watched: set<nat>, was: Moment, mid: Moment, now: Moment, c: nat)
    requires Onward(was, mid) && Onward(mid, now)
    requires Covered(watched, was, mid, c) && Attended(watched, mid, now, c)
    requires Done(watched, was, mid, c) || SamePlace(watched, was, mid, c)
    ensures Attended(watched, was, now, c)
  {
    hide HandedFrom, Stuck;
    if Done(watched, was, mid, c) {
      DoneLater(watched, was, mid, now, c);
    } else {
      if c in mid.resumeAfter { FromLater(watched, was, mid, now, c, Some(mid.resumeAfter[c])); }
      SinceEarlier(was, mid, now);
      if Stuck(mid, now, c) { StuckEarlier(was, mid, now, c); }
      if HandedFrom(watched, mid, now, c, None) { FromEarlier(watched, was, mid, now, c, None); }
      var upTo := At(now.resumeAfter, c);
      if upTo.Some? && HandedFrom(watched, mid, now, c, upTo) { FromEarlier(watched, was, mid, now, c, upTo); }
    }
  }

  /** A channel that stays where it is, or becomes pending, stays covered, and attended to. */
  lemma LeftAlone(watched: set<nat>, was: Moment, mid: Moment, now: Moment, c: nat)
    requires Onward(mid, now) && At(mid.resumeAfter, c) == At(now.resumeAfter, c)
             && (c in mid.pending ==> c in now.pending)
    requires Covered(watched, was, mid, c)
    ensures Done(watched, was, mid, c) ==> Done(watched, was, now, c)
    ensures Covered(watched, was, now, c) && (Attended(watched, was, mid, c) ==> Attended(watched, was, now, c))
  {
    hide HandedFrom, Stuck;
    if Done(watched, was, mid, c) {
      DoneLater(watched, was, mid, now, c);
    } else {
      if c in mid.resumeAfter { FromLater(watched, was, mid, now, c, Some(mid.resumeAfter[c])); }
      if Stuck(was, mid, c) { StuckLater(was, mid, now, c); }
    }
  }

  /** All these channels are covered since then, and some are attended to. */
  ghost predicate AllCovered(watched: set<nat>, was: Moment, now: Moment, all: set<nat>, attended: set<nat>) {
    && Onward(was, now)
    && (forall c :: c in all ==> Covered(watched, was, now, c))
    && (forall c :: c in attended ==> Attended(watched, was, now, c))
  }

  /** And they can be read on. */
  ghost predicate Reading(watched: set<nat>, was: Moment, now: Moment, all: set<nat>, attended: set<nat>) {
    && AllCovered(watched, was, now, all, attended) && attended <= all
    && forall c :: c in all ==> Done(watched, was, now, c) || SamePlace(watched, was, now, c)
  }

  lemma AllLeftAlone(watched: set<nat>, was: Moment, mid: Moment, now: Moment, all: set<nat>, attended: set<nat>)
    requires AllCovered(watched, was, mid, all, attended)
    requires Onward(mid, now) && mid.resumeAfter == now.resumeAfter && mid.pending <= now.pending
    ensures AllCovered(watched, was, now, all, attended)
  {
    hide Covered, Attended;
    OnwardOn(was, mid, now);
    forall c | c in all + attended
      ensures Covered(watched, was, mid, c) ==> Covered(watched, was, now, c)
      ensures Attended(watched, was, mid, c) ==> Attended(watched, was, now, c)
    {
      if Attended(watched, was, mid, c) { AttendedIsCovered(watched, was, mid, c); }
      if Covered(watched, was, mid, c) { LeftAlone(watched, was, mid, now, c); }
    }
  }

  lemma OneMoreAttended(
      watched: set<nat>, was: Moment, mid: Moment, now: Moment, all: set<nat>, attended: set<nat>, c: nat)
    requires Reading(watched, was, mid, all, attended) && c in all
    requires OnlyIn(watched, {c}, mid, now) && Attended(watched, was, now, c)
    requires Done(watched, was, now, c) || SamePlace(watched, was, now, c)
    ensures Reading(watched, was, now, all, attended + {c})
  {
    hide Covered, Attended, Done;
    OnwardOn(was, mid, now);
    AttendedIsCovered(watched, was, now, c);
    forall x | x in all && x != c
      ensures Covered(watched, was, now, x) && (x in attended ==> Attended(watched, was, now, x))
      ensures Done(watched, was, now, x) || SamePlace(watched, was, now, x)
    {
      LeftAlone(watched, was, mid, now, x);
    }
  }

  lemma BeginsReading(watched: set<nat>, was: Moment, now: Moment, all: set<nat>)
    requires Onward(was, now) && all <= now.pending && was.resumeAfter == now.resumeAfter && was.markers == now.markers
    ensures Reading(watched, was, now, all, {})
  {
    hide Covered;
    forall c | c in all ensures Covered(watched, was, now, c) { NotReadYet(watched, was, now, c); }
  }

  /** What a catch-up of these channels has to show: all are covered, and attended to unless a call failed. */
  ghost predicate CaughtUpSince(watched: set<nat>, was: Moment, now: Moment, all: set<nat>) {
    AllCovered(watched, was, now, all, {}) && (SomeFailed(was, now) || AllCovered(watched, was, now, all, all))
  }

  lemma CaughtUpLater(watched: set<nat>, was: Moment, mid: Moment, now: Moment, all: set<nat>)
    requires CaughtUpSince(watched, was, mid, all)
    requires Onward(mid, now) && mid.resumeAfter == now.resumeAfter && mid.pending <= now.pending
    ensures CaughtUpSince(watched, was, now, all)
  {
    AllLeftAlone(watched, was, mid, now, all, {});
    if SomeFailed(was, mid) {
      var i :| |was.asks| <= i < |mid.asks| && Fails(mid.asks[i], mid.asks[i].channel);
      assert now.asks[i] == mid.asks[i];
    } else {
      AllLeftAlone(watched, was, mid, now, all, all);
    }
  }

  lemma AttendedIsCovered(watched: set<nat>, was: Moment, now: Moment, c: nat)
    requires Attended(watched, was, now, c)
    ensures Covered(watched, was, now, c)
  {
  }

  /** All above the place that a read began from, or what a run of pages has of it. */
  lemma ReadFrom(watched: set<nat>, was: Moment, now: Moment, c: nat, thread: bool, start: nat, upTo: Option<nat>)
    requires InRange(was, now, c, start, upTo)
    requires if thread then c !in watched && c in was.markers.threads else c in watched
    requires if c in was.resumeAfter then start == was.resumeAfter[c]
             else if thread then start == was.markers.threads[c]
             else if c in was.markers.channels then start == was.markers.channels[c]
             else Since(was, now, FirstWindow(c, start))
    ensures HandedFrom(watched, was, now, c, upTo)
  {
  }

  lemma RunAttended(watched: set<nat>, was: Moment, now: Moment, c: nat, thread: bool, start: nat, denied: bool)
    requires denied ==> Since(was, now, Denial(c))
    requires !denied && c !in now.pending ==> InRange(was, now, c, start, None)
    requires c in now.pending && c in now.resumeAfter ==> InRange(was, now, c, start, Some(now.resumeAfter[c]))
    requires c in now.pending && c in was.resumeAfter ==> c in now.resumeAfter
    requires c in now.pending ==> Stuck(was, now, c)
    requires now.markers == was.markers
    requires if thread then c !in watched && c in was.markers.threads else c in watched
    requires if c in was.resumeAfter then start == was.resumeAfter[c]
             else if thread then start == was.markers.threads[c]
             else if c in was.markers.channels then start == was.markers.channels[c]
             else Since(was, now, FirstWindow(c, start))
    ensures Attended(watched, was, now, c)
  {
    hide Place, Since, Stuck, HandedFrom;
    if denied {
    } else if c !in now.pending {
      ReadFrom(watched, was, now, c, thread, start, None);
    } else if c in now.resumeAfter {
      ReadFrom(watched, was, now, c, thread, start, Some(now.resumeAfter[c]));
    }
  }

  datatype Step = Again | Finished | Stopped | NoAccess | Failed

  /** What a lookup makes of a live message. Lost stands for a call that fails. */
  datatype Whereabouts = Known(thread: bool) | Below | Lost

  /** What comes on the gateway: a message, which may be of a thread and may be mail, or something else. */
  datatype Live = Message(post: Post, candidate: bool, mail: bool) | Life

  class Discord {
    /** The channels the allowlist names. */
    const watched: set<nat>
    /** No call fails, nothing has to wait, the connection stays, and the poller gets through. */
    const quiet: bool

    var posted: seq<Post>
    /** Where a first-run window begins now. */
    var windowStart: nat

    // the adapter's memory
    var open: bool
    var queue: seq<Post>
    var inflight: seq<Post>
    var seen: set<Post>
    var staged: seq<Post>
    var marks: map<Post, Mark>
    var droppedMarks: seq<Mark>
    var held: seq<Mark>
    var pending: set<nat>
    var resumeAfter: map<nat, nat>
    var records: map<nat, Record>
    var markers: Markers
    // the disk
    var saved: Markers

    /** How each connect went. */
    ghost var dials: seq<bool>
    /** The calls made to the platform, and the waits it asked for. */
    ghost var asks: seq<Ask>
    /** How many of them raised, past whoever catches a passing error. */
    ghost var thrown: nat
    /** Channels whose history the platform refused when it was last asked. */
    ghost var refused: set<nat>
    /** What came on the gateway. */
    ghost var frames: seq<Live>
    /** How often the gateway was polled. */
    ghost var polls: nat
    /** Whether the heartbeat was found answered, each time it was looked at. */
    ghost var acks: seq<bool>
    /** Whether this process has listed what it catches up. */
    ghost var listed: bool
    /** What has happened that excuses the adapter from messages. */
    ghost var events: seq<Event>
    /** Every message read about, with how much had happened when it last was. */
    ghost var due: map<Post, nat>
    ghost var settled: set<Post>
    /** Messages given up, each with the event that it was given up for. */
    ghost var excused: map<Post, nat>
    ghost var handed: set<Post>
    /** What this process owes from the one before. */
    ghost var inherited: set<Post>
    /** Messages that a marker or floor had passed when they were handed on, or before they were settled. */
    ghost var late: set<Post>
    /** Channels whose floor is not on disk, because its write failed. */
    ghost var unsaved: set<nat>

    ghost predicate Owes(p: Post)
      reads `due, `settled, `excused
    {
      p in due && p !in settled && p !in excused
    }

    ghost predicate ExcusesReal()
      reads `due, `excused, `events
    {
      Justified(due, excused, events)
    }

    ghost function Past(): Log
      reads `due, `settled, `events
    {
      Log(events, due, settled)
    }

    /** No marker or floor has passed a message that is owed, in memory or on disk. */
    ghost predicate NothingPassed()
      reads `due, `settled, `excused, `markers, `saved, `late, `unsaved
    {
      forall p :: Owes(p) && p !in late ==>
        NotPassed(markers, watched, p) && (NotPassed(saved, watched, p) || p.channel in unsaved)
    }

    /** What is owed and not handed on yet is reached from the markers. */
    ghost predicate NothingUnreachable()
      reads `due, `settled, `excused, `markers, `saved, `handed, `unsaved
    {
      forall p :: Owes(p) && p !in handed ==> Ahead(p)
    }

    /** The markers in memory and on disk have not reached this message. */
    ghost predicate Ahead(p: Post)
      reads `markers, `saved, `unsaved
    {
      Reaches(markers, watched, p) && (Reaches(saved, watched, p) || p.channel in unsaved)
    }

    ghost predicate CaughtUp()
      reads `due, `settled, `excused, `pending, `handed, `listed
    {
      listed ==> forall p :: Owes(p) && p.channel !in pending ==> p in handed
    }

    ghost predicate NothingDropped()
      reads `handed, `settled, `queue, `inflight
    {
      forall p :: p in handed && p !in settled ==> p in queue || p in inflight
    }

    /** A page run continues below every owed message it has not handed on. */
    ghost predicate ResumesBelow()
      reads `due, `settled, `excused, `handed, `resumeAfter
    {
      forall p :: Owes(p) && p.channel in resumeAfter && p !in handed ==> resumeAfter[p.channel] < p.id
    }

    /** In allowlisted channels, what this process has read about is unread only while a run of pages is under way. */
    ghost predicate RunsUnderWay()
      reads `due, `settled, `excused, `handed, `resumeAfter, `inherited
    {
      forall p :: Owes(p) && p.channel in watched && p !in handed && p !in inherited ==> p.channel in resumeAfter
    }

    ghost predicate FloorsApart()
      reads `markers, `saved
    {
      && (forall c :: c in markers.unresolved ==> c !in watched)
      && (forall c :: c in saved.unresolved ==> c !in watched)
    }

    ghost predicate MarksReal()
      reads `marks, `held, `droppedMarks, `staged, `settled
    {
      && (forall p :: p in marks ==> marks[p].post == p)
      && (forall m :: m in held ==> m.post in settled)
      && (forall m :: m in droppedMarks ==> m.post in settled)
      && (forall p :: p in staged ==> p in settled)
    }

    ghost predicate AllPosted()
      reads `due, `settled, `excused, `posted
    {
      forall p :: Owes(p) ==> p in posted
    }

    ghost predicate Valid()
      reads `due, `settled, `excused, `markers, `saved, `pending, `handed, `queue, `inflight, `listed, `inherited
      reads `resumeAfter, `marks, `held, `droppedMarks, `staged, `posted, `events, `late, `unsaved
    {
      && ExcusesReal() && NothingPassed() && NothingUnreachable() && CaughtUp() && NothingDropped() && ResumesBelow()
      && RunsUnderWay() && FloorsApart() && MarksReal() && AllPosted()
    }

    /** What holds of the disk at every moment, also after a write that failed. */
    ghost predicate Resumable()
      reads `due, `settled, `excused, `saved, `events, `posted, `late, `unsaved, `handed
    {
      && ExcusesReal() && AllPosted() && (forall c :: c in saved.unresolved ==> c !in watched)
      && (forall p :: Owes(p) && p !in late ==> NotPassed(saved, watched, p) || p.channel in unsaved)
      && (forall p :: Owes(p) && p !in handed ==> Reaches(saved, watched, p) || p.channel in unsaved)
    }

    lemma ValidIsResumable()
      requires Valid()
      ensures Resumable()
    {
      hide Reaches, NotPassed, Justified;
    }

    lemma Unchanged()
      ensures Continues(Past(), Past())
    {
    }

    constructor (watched: set<nat>, windowStart: nat, saved: Markers, posted: seq<Post>, quiet: bool)
      requires forall c :: c in saved.unresolved ==> c !in watched
      ensures Valid() && this.watched == watched && this.windowStart == windowStart && this.posted == posted
      ensures this.saved == saved == markers && !open && queue == [] && inflight == [] && seen == {} && staged == []
      ensures marks == map[] && droppedMarks == [] && held == [] && pending == {} && resumeAfter == map[]
      ensures records == map[] && !listed && events == [] && due == map[] && settled == {} && excused == map[]
      ensures handed == {} && inherited == {} && late == {} && unsaved == {} && asks == [] && dials == []
      ensures thrown == 0 && refused == {} && frames == [] && acks == [] && polls == 0 && this.quiet == quiet
    {
      this.watched, this.windowStart, this.posted := watched, windowStart, posted;
      this.saved, this.markers := saved, saved;
      open, queue, inflight, seen, staged, marks, droppedMarks, held := false, [], [], {}, [], map[], [], [];
      pending, resumeAfter, records := {}, map[], map[];
      listed, events, due, settled, excused, handed := false, [], map[], {}, map[], {};
      inherited, late, unsaved, asks, dials := {}, {}, {}, [], [];
      thrown, refused, frames, acks, polls := 0, {}, [], [], 0;
      this.quiet := quiet;
    }

    /**
     A new process: of the one before only the markers on disk are left, and the letters written. Of
     what that one owed it still owes exactly what is reached: where a place is stored for the channel,
     what lies above it, and in an allowlisted channel without one, what lies above the start of a
     first-run window.
     */
    constructor Resume(dead: Discord, windowStart: nat)
      requires dead.Resumable()
      ensures Valid() && watched == dead.watched && this.windowStart == windowStart && posted == dead.posted
      ensures quiet == dead.quiet
      ensures saved == markers == dead.saved && !open && queue == [] && inflight == [] && seen == {} && staged == []
      ensures marks == map[] && droppedMarks == [] && held == [] && pending == {} && resumeAfter == map[]
      ensures records == map[] && !listed && due == dead.due && settled == dead.settled
      ensures handed == {} && late == {} && unsaved == {} && Continues(dead.Past(), Past())
      ensures forall p :: dead.Owes(p) ==> (Owes(p) <==> Reached(dead.saved, watched, windowStart, p))
      ensures Kept(dead.excused, excused) && forall p :: Owes(p) <==> p in inherited
      ensures forall p :: p in excused && p !in dead.excused ==> dead.Owes(p)
    {
      this.watched, this.windowStart, posted := dead.watched, windowStart, dead.posted;
      markers, saved := dead.saved, dead.saved;
      open, queue, inflight, seen, staged, marks, droppedMarks, held := false, [], [], {}, [], map[], [], [];
      pending, resumeAfter, records, asks, dials := {}, map[], map[], [], [];
      thrown, refused, frames, acks, polls, quiet := 0, {}, [], [], 0, dead.quiet;
      listed, due, settled, handed, late, unsaved := false, dead.due, dead.settled, {}, {}, {};
      ghost var gone := set p | p in dead.due && dead.Owes(p) && !Reached(dead.saved, dead.watched, windowStart, p);
      events := dead.events + [Restart(dead.watched, dead.saved, windowStart)];
      excused := dead.excused + map p | p in gone :: |dead.events|;
      inherited := set p | p in dead.due && dead.Owes(p) && Reached(dead.saved, dead.watched, windowStart, p);
      new;
      hide Valid, Resumable, Owes, Reached, Kept, Continues;
      Resumed(dead, gone);
    }

    lemma Resumed(dead: Discord, gone: set<Post>)
      requires dead.Resumable() && watched == dead.watched && markers == saved == dead.saved && posted == dead.posted
      requires due == dead.due && settled == dead.settled && !listed && handed == {} && late == {} && unsaved == {}
      requires queue == inflight == staged == [] && droppedMarks == held == [] && marks == map[] && pending == {}
      requires resumeAfter == map[]
      requires forall p :: p in gone <==> dead.Owes(p) && !Reached(saved, watched, windowStart, p)
      requires forall p :: p in inherited <==> dead.Owes(p) && Reached(saved, watched, windowStart, p)
      requires excused == dead.excused + map p | p in gone :: |dead.events|
      requires events == dead.events + [Restart(watched, saved, windowStart)]
      ensures Valid() && Kept(dead.excused, excused) && Continues(dead.Past(), Past())
      ensures forall p :: dead.Owes(p) ==> (Owes(p) <==> Reached(saved, watched, windowStart, p))
      ensures forall p :: Owes(p) <==> p in inherited
      ensures forall p :: p in excused && p !in dead.excused ==> dead.Owes(p)
    {
      hide Justified;
      ExcuseMore(dead.due, dead.excused, dead.events, Restart(watched, saved, windowStart), gone);
      assert forall p :: Owes(p) <==> dead.Owes(p) && p !in gone;
      assert NothingPassed() && NothingUnreachable() by { hide ExcusesReal; }
    }

    /** Handing on, settling and excusing messages keep what is said of those still owed. */
    twostate lemma OwingLess()
      requires old(NothingPassed() && NothingUnreachable() && CaughtUp())
      requires old(ResumesBelow() && RunsUnderWay() && AllPosted())
      requires markers == old(markers) && saved == old(saved) && listed == old(listed) && unsaved == old(unsaved)
      requires pending == old(pending) && resumeAfter == old(resumeAfter) && inherited == old(inherited)
      requires forall p :: Owes(p) && p !in late ==>
                 old(Owes(p) && p !in late) || (NotPassed(markers, watched, p) && NotPassed(saved, watched, p))
      requires forall p :: Owes(p) && p !in handed ==> old(Owes(p) && p !in handed)
      requires forall p :: Owes(p) ==> p in posted
      ensures NothingPassed() && NothingUnreachable() && CaughtUp() && ResumesBelow() && RunsUnderWay() && AllPosted()
    {
      hide Reaches, NotPassed;
    }

    /** The same where nothing but what is owed, and why, has changed. */
    twostate lemma OwingChanged()
      requires old(Valid()) && Justified(due, excused, events)
      requires unchanged(`markers, `saved, `pending, `handed, `queue, `inflight, `listed, `inherited, `resumeAfter)
      requires unchanged(`marks, `held, `droppedMarks, `staged, `posted, `unsaved, `settled)
      requires forall p :: Owes(p) && p !in late ==>
                 old(Owes(p) && p !in late) || (NotPassed(markers, watched, p) && NotPassed(saved, watched, p))
      requires forall p :: Owes(p) && p !in handed ==> old(Owes(p)) || (Ahead(p) && Runs(p))
      requires forall p :: Owes(p) ==> p in posted
      ensures Valid()
    {
      hide Reaches, NotPassed, Justified;
    }

    /** Its channel is pending, and a run of pages stands below it. */
    ghost predicate Runs(p: Post)
      reads `pending, `resumeAfter
    {
      && p.channel in pending && (p.channel in resumeAfter ==> resumeAfter[p.channel] < p.id)
      && (p.channel in watched ==> p.channel in resumeAfter)
    }

    ghost method Settle(p: Post)
      requires Valid()
      modifies `settled
      ensures Valid() && settled == old(settled) + {p}
    {
      OwedPosted();
      hide ExcusesReal, NothingPassed, NothingUnreachable, CaughtUp, ResumesBelow, RunsUnderWay, FloorsApart, AllPosted;
      settled := settled + {p};
      OwingLess();
    }

    lemma OwedPosted()
      requires Valid()
      ensures forall p :: Owes(p) ==> p in posted
    {
    }

    /** Nothing is left to be handed on that was not before. */
    twostate predicate NoMoreUnread()
      reads `due, `settled, `excused, `handed
    {
      forall q :: Owes(q) && q !in handed ==> old(Owes(q) && q !in handed)
    }

    ghost method HandOver(p: Post)
      requires Valid() && (p in settled || p in queue)
      modifies `handed
      ensures Valid() && handed == old(handed) + {p}
    {
      OwedPosted();
      hide ExcusesReal, NothingPassed, NothingUnreachable, CaughtUp, ResumesBelow, RunsUnderWay, FloorsApart, AllPosted;
      hide MarksReal;
      handed := handed + {p};
      OwingLess();
    }

    /** A message that is handed on is owed until it is settled, whatever was given up before. */
    ghost method Renew(p: Post)
      requires Valid() && p in posted && p in handed
      modifies `due, `excused, `late
      ensures Valid() && due == old(due)[p := |events|] && excused == old(excused) - {p} && NoMoreUnread()
      ensures late == old(late) + if NotPassed(markers, watched, p) && NotPassed(saved, watched, p) then {} else {p}
      ensures Continues(old(Past()), Past())
    {
      OwedPosted();
      ExcusesJustified();
      HandDue(p);
      hide Valid, Justified, Continues, NotPassed;
      due, excused := due[p := |events|], excused - {p};
      late := late + if NotPassed(markers, watched, p) && NotPassed(saved, watched, p) then {} else {p};
      assert forall q :: Owes(q) && q != p ==> old(Owes(q));
      hide Owes, Ahead, Runs;
      OwingChanged();
    }

    ghost method Hand(p: Post)
      requires Valid() && p in posted && (p in settled || p in queue)
      modifies `handed, `due, `excused, `late
      ensures Valid() && handed == old(handed) + {p}
      ensures due == old(due)[p := |events|] && excused == old(excused) - {p} && NoMoreUnread()
      ensures late == old(late) + if NotPassed(markers, watched, p) && NotPassed(saved, watched, p) then {} else {p}
      ensures Continues(old(Past()), Past())
    {
      hide Valid, Continues, NotPassed;
      HandOver(p);
      Renew(p);
    }

    lemma HandDue(p: Post)
      requires ExcusesReal()
      ensures Justified(due[p := |events|], excused - {p}, events)
      ensures Continues(Past(), Log(events, due[p := |events|], settled))
    {
      hide Excuses;
    }

    /** What is owed, not handed on, and lost by this. */
    ghost function Losing(e: Event): (s: set<Post>)
      reads `due, `settled, `excused, `handed
      ensures forall p :: p in s <==> Owes(p) && p !in handed && Excuses(e, p)
    {
      set p | p in due && p !in handed && Owes(p) && Excuses(e, p)
    }

    lemma LosingOwed(e: Event)
      ensures Losing(e) !! excused.Keys && forall p :: p in Losing(e) ==> p in due && Excuses(e, p)
    {
    }

    /** Something happens that excuses the adapter from what it owes of this and has not handed on. */
    ghost method Happens(e: Event)
      requires Valid()
      modifies `excused, `events
      ensures Valid() && events == old(events) + [e] && Kept(old(excused), excused)
      ensures excused.Keys == old(excused).Keys + old(Losing(e))
      ensures forall p :: Owes(p) <==> old(Owes(p)) && !(p !in handed && Excuses(e, p))
    {
      OwedPosted();
      LosingOwed(e);
      ExcusesJustified();
      ghost var gone := Losing(e);
      hide Valid, Justified, Excuses, Without, Kept, Losing;
      GiveUpMore(due, excused, events, e, gone);
      excused, events := Without(excused, gone, |events|), events + [e];
      assert forall p :: Owes(p) <==> old(Owes(p)) && p !in gone;
      hide Owes, Ahead, Runs, NotPassed;
      OwingChanged();
    }

    lemma ExcusesJustified()
      requires Valid()
      ensures Justified(due, excused, events)
    {
    }

    method Pass(more: seq<Post>, later: nat)
      requires Valid()
      modifies `posted, `windowStart
      ensures Valid() && posted == old(posted) + more && windowStart == later
    {
      hide ExcusesReal, NothingPassed, NothingUnreachable, CaughtUp, ResumesBelow, RunsUnderWay, FloorsApart;
      hide MarksReal, NothingDropped;
      posted, windowStart := posted + more, later;
    }

    /** Messages are posted and time passes. */
    method Elapse()
      requires Valid()
      modifies `posted, `windowStart
      ensures Valid() && old(posted) <= posted
    {
      hide Valid;
      var more: seq<Post> := *;
      var later: nat :| true;
      Pass(more, later);
    }

    /** A message known to belong: mail is queued once in each fetch, anything else is dropped and settled. */
    method Ingest(p: Post, mail: bool, mark: Mark)
      requires Valid() && seen <= Elements(queue) && mark.post == p && p in posted
      modifies `queue, `seen, `marks, `droppedMarks, `handed, `settled, `due, `excused, `late
      ensures Valid() && seen <= Elements(queue) && Continues(old(Past()), Past())
      ensures handed == old(handed) + {p} && due == old(due)[p := |events|] && excused == old(excused) - {p}
      ensures late == old(late) + if NotPassed(markers, watched, p) && NotPassed(saved, watched, p) then {} else {p}
      ensures NoMoreUnread()
      ensures mail ==> settled == old(settled) && p in queue
      ensures mail ==> queue == old(queue) + (if p in old(seen) then [] else [p]) && seen == old(seen) + {p}
      ensures mail ==> marks == (if p in old(seen) then old(marks) else old(marks)[p := mark])
      ensures mail ==> droppedMarks == old(droppedMarks)
      ensures !mail ==> settled == old(settled) + {p} && queue == old(queue) && seen == old(seen)
      ensures !mail ==> marks == old(marks) && droppedMarks == old(droppedMarks) + [mark]
    {
      hide Valid, NotPassed, Continues;
      Unchanged();
      if !mail {
        Drop(p, mark);
        OnlySettled(old(Past()));
      } else if p !in seen {
        Enqueue(p, mark);
      }
      assert p in settled || p in queue;
      ghost var before := Past();
      Hand(p);
      ContinuesOn(old(Past()), before, Past());
    }

    method Drop(p: Post, mark: Mark)
      requires Valid() && mark.post == p
      modifies `droppedMarks, `settled
      ensures Valid() && settled == old(settled) + {p} && droppedMarks == old(droppedMarks) + [mark]
    {
      Settle(p);
      hide ExcusesReal, NothingPassed, NothingUnreachable, CaughtUp, ResumesBelow, RunsUnderWay, FloorsApart, AllPosted;
      hide NothingDropped;
      droppedMarks := droppedMarks + [mark];
    }

    method Enqueue(p: Post, mark: Mark)
      requires Valid() && seen <= Elements(queue) && mark.post == p
      modifies `queue, `seen, `marks
      ensures Valid() && seen <= Elements(queue) && p in queue
      ensures queue == old(queue) + [p] && seen == old(seen) + {p} && marks == old(marks)[p := mark]
    {
      hide ExcusesReal, NothingPassed, NothingUnreachable, CaughtUp, ResumesBelow, RunsUnderWay, FloorsApart, AllPosted;
      marks := marks[p := mark];
      assert MarksReal();
      hide MarksReal;
      seen := seen + {p};
      queue := queue + [p];
    }

    ghost function Now(): Moment
      reads `posted, `handed, `pending, `resumeAfter, `markers, `events, `asks
    {
      Moment(posted, handed, pending, resumeAfter, markers, events, asks)
    }

    ghost predicate UnreadAbove(c: nat, after: nat)
      reads `due, `settled, `excused, `handed
    {
      forall p :: Owes(p) && p.channel == c && p !in handed ==> p.id > after
    }

    ghost predicate AllHandedIn(c: nat)
      reads `due, `settled, `excused, `handed
    {
      forall p :: Owes(p) && p.channel == c ==> p in handed
    }

    method Enter(cs: set<nat>)
      requires Valid()
      modifies `pending
      ensures Valid() && pending == old(pending) + cs
    {
      hide ExcusesReal, NothingPassed, NothingUnreachable, ResumesBelow, RunsUnderWay, FloorsApart, AllPosted;
      hide MarksReal, NothingDropped;
      pending := pending + cs;
    }

    method Leave(c: nat)
      requires Valid() && AllHandedIn(c)
      modifies `pending
      ensures Valid() && pending == old(pending) - {c}
    {
      hide ExcusesReal, NothingPassed, NothingUnreachable, ResumesBelow, RunsUnderWay, FloorsApart, AllPosted;
      hide MarksReal, NothingDropped;
      pending := pending - {c};
    }

    /** What is owed in a channel is given up. */
    ghost method GiveUp(c: nat, e: Event)
      requires Valid() && (e == Denial(c) || e == NoThread(c))
      modifies `excused, `events
      ensures Valid() && AllHandedIn(c) && events == old(events) + [e] && Kept(old(excused), excused)
      ensures excused.Keys == old(excused).Keys + old(Losing(e))
      ensures forall p :: Owes(p) && p !in handed ==> p.channel != c
    {
      hide Valid;
      Happens(e);
    }

    /** The platform denies the channel: nothing of it is owed, and it is no longer pending. */
    method DropDenied(c: nat)
      requires Valid() && (c in refused || (c in records && records[c] == Denied))
      modifies `excused, `events, `pending
      ensures Valid() && AllHandedIn(c) && Continues(old(Past()), Past())
      ensures events == old(events) + [Denial(c)] && pending == old(pending) - {c}
    {
      hide Valid, Continues, Kept, Losing;
      GiveUp(c, Denial(c));
      OnlyExcused(old(Past()));
      Leave(c);
    }

    method NoteRecord(c: nat, record: Record)
      modifies `records
      ensures records == old(records)[c := record]
    {
      records := records[c := record];
    }

    /** The platform has named a time for this channel, and it has not come. */
    method MustWait(c: nat) returns (wait: bool)
      modifies `asks
      ensures quiet ==> !wait
      ensures asks == old(asks) + if wait then [Waits(c)] else []
    {
      var named: bool := *;
      wait := named && !quiet;
      if wait { asks := asks + [Waits(c)]; }
    }

    /** GET /channels/{id}, asked once. A passing error may be caught. */
    method ChannelRecord(c: nat, ghost caught: bool) returns (r: Lookup)
      modifies `records, `asks, `thrown
      ensures Kept(old(records), records)
      ensures if r.Found? then c in records && records[c] == r.record else records == old(records) && c !in records
      ensures if c in old(records) then r.Found? && asks == old(asks) else asks == old(asks) + [Looks(c, r.Found?)]
      ensures thrown == old(thrown) + (if r.Fatal? || (r.Raised? && !caught) then 1 else 0) && (quiet ==> r.Found?)
    {
      if c in records { return Found(records[c]); }
      if {
        case !quiet => r := Raised;
        case !quiet => r := Fatal;
        case !quiet => r := NoAnswer;
        case true =>
          var record: Record := *;
          NoteRecord(c, record);
          r := Found(record);
      }
      asks := asks + [Looks(c, r.Found?)];
      if r.Fatal? || (r.Raised? && !caught) { thrown := thrown + 1; }
    }

    /** One page of a channel's history after an id. */
    method History(c: nat, after: nat) returns (r: Rows)
      requires Valid()
      modifies `posted, `windowStart, `asks, `thrown, `refused
      ensures Valid() && old(posted) <= posted
      ensures r.Page? ==> r.posts == FirstPage(After(posted, c, after))
      ensures asks == old(asks) + [Reads(c, r.Refused? || r.Page?)]
      ensures if r.Refused? then c in refused else r.Page? ==> c !in refused
      ensures thrown == old(thrown) + (if r.Error? then 1 else 0) && (quiet ==> r.Page? || r.Refused?)
    {
      hide Valid;
      Elapse();
      if {
        case !quiet => r := Error;
        case !quiet => r := Silent;
        case true => r := Refused;
        case true => r := Page(FirstPage(After(posted, c, after)));
      }
      asks := asks + [Reads(c, r.Refused? || r.Page?)];
      if r.Error? { thrown := thrown + 1; }
      refused := if r.Refused? then refused + {c} else if r.Page? then refused - {c} else refused;
    }

    method IngestRows(rows: seq<Post>, thread: bool)
      requires Valid() && seen <= Elements(queue) && forall p :: p in rows ==> p in posted
      modifies `queue, `seen, `marks, `droppedMarks, `handed, `settled, `due, `excused, `late
      ensures Valid() && seen <= Elements(queue) && Continues(old(Past()), Past())
      ensures handed == old(handed) + Elements(rows) && excused.Keys <= old(excused).Keys && NoMoreUnread()
      ensures forall p :: p in rows ==> p in due
    {
      hide Valid, NotPassed, Continues;
      Unchanged();
      for i := 0 to |rows|
        invariant Valid() && seen <= Elements(queue) && Continues(old(Past()), Past())
        invariant handed == old(handed) + Elements(rows[..i]) && excused.Keys <= old(excused).Keys && NoMoreUnread()
        invariant forall p :: p in rows[..i] ==> p in due
      {
        var mail: bool := *;
        ghost var before := Past();
        Ingest(rows[i], mail, Mark(rows[i], thread));
        ContinuesOn(old(Past()), before, Past());
        assert rows[..i + 1] == rows[..i] + [rows[i]];
      }
      assert rows[..|rows|] == rows;
    }

    /** The page run stands after this id. */
    method StandAt(c: nat, after: nat)
      requires Valid() && UnreadAbove(c, after)
      modifies `resumeAfter
      ensures Valid() && UnreadAbove(c, after) && resumeAfter == old(resumeAfter)[c := after]
    {
      hide ExcusesReal, NothingPassed, NothingUnreachable, CaughtUp, FloorsApart, AllPosted, MarksReal, NothingDropped;
      resumeAfter := resumeAfter[c := after];
    }

    method Finish(c: nat)
      requires Valid() && AllHandedIn(c)
      modifies `resumeAfter, `pending
      ensures Valid() && AllHandedIn(c) && pending == old(pending) - {c} && resumeAfter == old(resumeAfter) - {c}
    {
      Leave(c);
      hide ExcusesReal, NothingPassed, NothingUnreachable, CaughtUp, FloorsApart, AllPosted, MarksReal, NothingDropped;
      resumeAfter := resumeAfter - {c};
    }

    /** What falls due, or falls due again, is owed whatever happened before. */
    lemma DueMore(more: set<Post>)
      requires ExcusesReal() && more !! excused.Keys
      ensures Justified(due + map p | p in more :: |events|, excused, events)
      ensures Continues(Past(), Log(events, due + map p | p in more :: |events|, settled))
    {
      hide Excuses;
    }

    /** These messages can be read: no marker has passed them, and a page run stands below those not handed on. */
    ghost predicate Readable(more: set<Post>)
      reads `posted, `markers, `saved, `pending, `resumeAfter, `handed, `unsaved
    {
      forall p :: p in more ==> p in posted && Ahead(p) && (p !in handed ==> Runs(p))
    }

    ghost method Restore(more: set<Post>)
      requires Valid() && Readable(more)
      modifies `excused
      ensures Valid() && excused == old(excused) - more
    {
      hide FloorsApart, MarksReal, NothingDropped, NotPassed, Excuses;
      excused := excused - more;
    }

    ghost method FallDue(more: set<Post>)
      requires Valid() && Readable(more) && more !! excused.Keys
      modifies `due
      ensures Valid() && Continues(old(Past()), Past()) && due.Keys == old(due).Keys + more
    {
      hide FloorsApart, MarksReal, NothingDropped, NotPassed, Justified, Continues;
      DueMore(more);
      due := due + map p | p in more :: |events|;
    }

    /** These are owed, whatever was given up before. */
    ghost method Owe(more: set<Post>)
      requires Valid() && Readable(more)
      modifies `due, `excused
      ensures Valid() && Continues(old(Past()), Past())
      ensures due.Keys == old(due).Keys + more && excused == old(excused) - more
    {
      hide Valid, Continues;
      Unchanged();
      Restore(more);
      ghost var before := Past();
      FallDue(more);
      ContinuesOn(old(Past()), before, Past());
    }

    /** What the platform holds of a channel after an id, where no marker is past it. */
    ghost function Listed(c: nat, after: nat): (s: set<Post>)
      reads `posted, `markers, `saved, `unsaved
      ensures forall p :: p in s <==> p in posted && p.channel == c && p.id > after && Ahead(p)
    {
      set p | p in posted && p.channel == c && p.id > after && Ahead(p)
    }

    /** The messages the platform held when it answered are owed, where no marker is past them yet. */
    ghost method NoteAnswer(c: nat, after: nat)
      requires Valid() && c in pending
      requires forall p :: p in posted && p.channel == c && p.id > after && p !in handed ==>
                 c in resumeAfter && resumeAfter[c] < p.id
      modifies `due, `excused
      ensures Valid() && Continues(old(Past()), Past())
      ensures due.Keys == old(due).Keys + Listed(c, after) && excused == old(excused) - Listed(c, after)
    {
      hide Valid, Continues, Reaches, Listed;
      Owe(Listed(c, after));
    }

    /** One page: handed on at once, oldest first, and then the run stands after it. */
    method TurnPage(c: nat, thread: bool, after: nat) returns (step: Step, next: nat)
      requires Valid() && seen <= Elements(queue) && c in pending && UnreadAbove(c, after)
      requires c in resumeAfter ==> resumeAfter[c] == after
      modifies `asks, `thrown, `refused, `posted, `windowStart, `due, `excused, `pending, `resumeAfter, `events
      modifies `queue, `seen, `marks, `droppedMarks, `handed, `settled, `late
      ensures Valid() && seen <= Elements(queue) && old(handed) <= handed && old(posted) <= posted
      ensures Continues(old(Past()), Past()) && next >= after
      ensures step == Again ==> UnreadAbove(c, next) && pending == old(pending)
      ensures step == Again ==> c in resumeAfter && resumeAfter[c] == next
      ensures step == Again ==> forall p :: p in posted && p.channel == c && after < p.id <= next ==> p in handed
      ensures step == Finished ==> forall p :: p in posted && p.channel == c && p.id > after ==> p in handed
      ensures step == Finished || step == NoAccess ==> pending == old(pending) - {c} && AllHandedIn(c)
      ensures step == Stopped || step == Failed ==> pending == old(pending) && resumeAfter == old(resumeAfter)
      ensures events == old(events) + if step == NoAccess then [Denial(c)] else []
      ensures step != NoAccess ==> excused.Keys <= old(excused).Keys
      ensures resumeAfter - {c} == old(resumeAfter) - {c}
      ensures asks == old(asks) + [Reads(c, step != Stopped && step != Failed)]
      ensures thrown == old(thrown) + (if step == Failed then 1 else 0) && (quiet ==> step != Failed && step != Stopped)
    {
      hide Valid, Reaches, After, FirstPage, Elements, Continues;
      next := after;
      Unchanged();
      var r := History(c, after);
      if r == Error { return Failed, after; }
      if r == Silent { return Stopped, after; }
      if r == Refused {
        DropDenied(c);
        return NoAccess, after;
      }
      ghost var before := Past();
      step, next := TakePage(c, thread, after, r.posts);
      ContinuesOn(old(Past()), before, Past());
    }

    /** A page is handed on; a short one is the last. */
    method TakePage(c: nat, thread: bool, after: nat, rows: seq<Post>) returns (step: Step, next: nat)
      requires Valid() && seen <= Elements(queue) && c in pending && UnreadAbove(c, after)
      requires (c in resumeAfter ==> resumeAfter[c] == after) && rows == FirstPage(After(posted, c, after))
      modifies `due, `excused, `pending, `resumeAfter, `queue, `seen, `marks, `droppedMarks, `handed, `settled, `late
      ensures Valid() && seen <= Elements(queue) && old(handed) <= handed && Continues(old(Past()), Past())
      ensures next >= after && (step == Again || step == Finished) && excused.Keys <= old(excused).Keys
      ensures step == Again ==> UnreadAbove(c, next) && pending == old(pending)
      ensures step == Again ==> c in resumeAfter && resumeAfter[c] == next
      ensures step == Again ==> forall p :: p in posted && p.channel == c && after < p.id <= next ==> p in handed
      ensures step == Finished ==> forall p :: p in posted && p.channel == c && p.id > after ==> p in handed
      ensures step == Finished ==> pending == old(pending) - {c} && AllHandedIn(c)
      ensures resumeAfter - {c} == old(resumeAfter) - {c}
    {
      hide Valid, Reaches, After, FirstPage, Elements, Continues;
      PageSplits(posted, c, after);
      next := TakeRows(c, thread, after, rows);
      if |rows| < PAGE {
        Finish(c);
        return Finished, next;
      }
      return Again, next;
    }

    /** The rows of a page are handed on and the run stands after them. */
    method TakeRows(c: nat, thread: bool, after: nat, rows: seq<Post>) returns (next: nat)
      requires Valid() && seen <= Elements(queue) && c in pending && UnreadAbove(c, after)
      requires (c in resumeAfter ==> resumeAfter[c] == after) && Splits(rows, posted, c, after)
      modifies `due, `excused, `resumeAfter, `queue, `seen, `marks, `droppedMarks, `handed, `settled, `late
      ensures Valid() && seen <= Elements(queue) && old(handed) <= handed
      ensures rows != [] ==> next > after && UnreadAbove(c, next) && c in resumeAfter && resumeAfter[c] == next
      ensures rows == [] ==> next == after
      ensures forall p :: p in posted && p.channel == c && after < p.id <= next ==> p in handed
      ensures |rows| < PAGE ==> AllHandedIn(c)
      ensures |rows| < PAGE ==> forall p :: p in posted && p.channel == c && p.id > after ==> p in handed
      ensures Continues(old(Past()), Past()) && excused.Keys <= old(excused).Keys
      ensures resumeAfter - {c} == old(resumeAfter) - {c}
    {
      hide Valid, Reaches, Elements, Continues;
      next := after;
      IngestRows(rows, thread);
      assert UnreadAbove(c, after);
      ghost var before := Past();
      RowsHanded(rows);
      if rows != [] {
        next := rows[|rows| - 1].id;
        RestUnread(c, after, rows);
        StandAt(c, next);
      }
      NoteAnswer(c, after);
      ContinuesOn(old(Past()), before, Past());
      PostedOwed();
      if rows != [] { StandsBelow(c); }
    }

    lemma OnlySettled(before: Log)
      requires before.due == due && before.settled <= settled && before.events == events
      ensures Continues(before, Past())
    {
    }

    lemma StandsBelow(c: nat)
      requires Valid() && c in resumeAfter
      ensures UnreadAbove(c, resumeAfter[c])
    {
    }

    lemma RowsHanded(rows: seq<Post>)
      requires Elements(rows) <= handed
      ensures forall p :: p in rows ==> p in handed
    {
    }

    lemma RestUnread(c: nat, after: nat, rows: seq<Post>)
      requires Valid() && UnreadAbove(c, after) && Splits(rows, posted, c, after) && rows != []
      requires forall p :: p in rows ==> p in handed
      ensures UnreadAbove(c, rows[|rows| - 1].id)
    {
      PostedOwed();
    }

    lemma PostedOwed()
      requires Valid()
      ensures AllPosted()
    {
    }

    /** Where a run of pages begins: where the last one stopped, at the marker, or at a first-run window's start. */
    function StartOf(c: nat, thread: bool): nat
      requires thread ==> c in markers.threads
      reads `resumeAfter, `markers, `windowStart
    {
      if c in resumeAfter then resumeAfter[c]
      else if thread then markers.threads[c]
      else if c in markers.channels then markers.channels[c] else windowStart
    }

    /** What a new process reaches in a channel is what it reads from there: all that lies above that place. */
    lemma ReachedIsRead(p: Post, thread: bool)
      requires p.channel !in resumeAfter
      requires if thread then p.channel !in watched && p.channel in markers.threads else p.channel in watched
      ensures Reached(markers, watched, windowStart, p) <==> StartOf(p.channel, thread) < p.id
    {
    }

    /** A run begins in a first-run window: of what is owed, just what lies before it is given up. */
    ghost predicate InFirstWindow(c: nat)
      reads `resumeAfter, `markers
    {
      c in watched && c !in resumeAfter && c !in markers.channels
    }

    ghost method Begin(c: nat, thread: bool)
      requires Valid() && if thread then c !in watched && c in markers.threads else c in watched
      modifies `excused, `events
      ensures Valid() && UnreadAbove(c, StartOf(c, thread)) && Kept(old(excused), excused)
      ensures events == old(events) + if InFirstWindow(c) then [FirstWindow(c, windowStart)] else []
      ensures forall p :: old(Owes(p)) && p !in handed ==>
                (p in excused <==> InFirstWindow(c) && p.channel == c && p.id <= windowStart)
      ensures forall p :: p in excused && p !in old(excused) ==>
                old(Owes(p)) && p in inherited && InFirstWindow(c) && p.channel == c && p.id <= windowStart
    {
      OwedNotExcused();
      InheritedOnly();
      hide Valid;
      if InFirstWindow(c) { Happens(FirstWindow(c, windowStart)); }
      StartsBelow(c, thread);
    }

    lemma OwedNotExcused()
      ensures forall p :: Owes(p) ==> p !in excused
    {
    }

    /** In an allowlisted channel without a run of pages, what is unread is of the process before. */
    lemma InheritedOnly()
      requires Valid()
      ensures forall p :: Owes(p) && p !in handed && p.channel in watched && p.channel !in resumeAfter ==>
                p in inherited
    {
    }

    lemma StartsBelow(c: nat, thread: bool)
      requires Valid() && if thread then c !in watched && c in markers.threads else c in watched
      requires InFirstWindow(c) ==> forall p :: Owes(p) && p !in handed && p.channel == c ==> windowStart < p.id
      ensures UnreadAbove(c, StartOf(c, thread))
    {
    }

    /**
     A channel's history from where the last run stopped, or from its marker, at most MAX_PAGES
     pages. The channel leaves pending only if everything the platform held after that place has
     been handed on, or the platform denies the channel. What is given up of this channel lies before a
     first-run window and was owed by the process before, or the channel is denied.
     */
    method ReadHistory(c: nat, thread: bool) returns (raised: bool, ghost start: nat, ghost denied: bool)
      requires Valid() && seen <= Elements(queue)
      requires if thread then c !in watched && c in markers.threads else c in watched
      modifies `asks, `thrown, `refused, `posted, `windowStart, `due, `excused, `pending, `resumeAfter, `records,
        `events
      modifies `queue, `seen, `marks, `droppedMarks, `handed, `settled, `late
      ensures Valid() && seen <= Elements(queue) && old(handed) <= handed && Continues(old(Past()), Past())
      ensures pending == old(pending) + {c} || pending == old(pending) - {c}
      ensures c !in pending ==> AllHandedIn(c)
      ensures c !in pending && !denied ==>
                forall p :: p in old(posted) && p.channel == c && p.id > start ==> p in handed
      ensures !denied ==> forall p :: p in excused && p !in old(excused) ==>
                p in inherited && old(InFirstWindow(c)) && p.id <= start
      ensures Attended(watched, old(Now()), Now(), c) && OnlyIn(watched, {c}, old(Now()), Now())
      ensures raised ==> SomeFailed(old(Now()), Now())
      ensures thrown == old(thrown) + (if raised then 1 else 0) && (quiet ==> !raised)
    {
      hide Valid, Continues, Owes, AllHandedIn, UnreadAbove, Excuses, Kept, Losing, Attended, Stuck, Covered;
      start := 0;
      var go;
      go, raised, denied := LookUp(c);
      if go {
        ghost var entered, before := Now(), Past();
        raised, start, denied := ReadFromStart(c, thread);
        ContinuesOn(old(Past()), before, Past());
        OnlyInOn(watched, {c}, old(Now()), entered, Now());
        if raised { FailedEarlier(old(Now()), entered, Now()); }
        NotReadYet(watched, old(Now()), entered, c);
        ReadOn(watched, old(Now()), entered, Now(), c);
      } else {
        NotReadOn(old(Now()), Now(), c);
      }
    }

    lemma NotReadOn(was: Moment, now: Moment, c: nat)
      requires Since(was, now, Denial(c)) || (c in now.pending && Stuck(was, now, c))
      requires now.resumeAfter == was.resumeAfter && now.markers == was.markers
      ensures Attended(watched, was, now, c)
    {
      hide Stuck;
      if c in now.pending { NotReadYet(watched, was, now, c); }
    }

    /** The channel is pending, and it is looked up unless the platform asked to wait; a denied one is given up. */
    method LookUp(c: nat) returns (go: bool, raised: bool, ghost denied: bool)
      requires Valid()
      modifies `asks, `thrown, `excused, `pending, `records, `events
      ensures Valid() && Continues(old(Past()), Past()) && old(asks) <= asks && old(events) <= events
      ensures pending == if denied then old(pending) - {c} else old(pending) + {c}
      ensures !denied ==> excused == old(excused) && events == old(events)
      ensures denied ==> !go && AllHandedIn(c) && Since(old(Now()), Now(), Denial(c))
      ensures !go && !denied ==> Stuck(old(Now()), Now(), c)
      ensures raised ==> !go && SomeFailed(old(Now()), Now())
      ensures thrown == old(thrown) + (if raised then 1 else 0) && (quiet ==> (go || denied) && !raised)
      ensures go ==> c in records && records[c] != Denied
      ensures asks == old(asks) || (|asks| == |old(asks)| + 1 && (asks[|old(asks)|] == Waits(c) ==> !go && !denied))
    {
      hide Valid, Continues, Owes, AllHandedIn, Excuses, Kept, Losing, Stuck, Since, SomeFailed;
      Unchanged();
      Enter({c});
      var wait := MustWait(c);
      if wait {
        LastAsk(old(Now()), Now(), c);
        return false, false, false;
      }
      var record := ChannelRecord(c, false);
      if !record.Found? {
        LastAsk(old(Now()), Now(), c);
        return false, record.Raised? || record.Fatal?, false;
      }
      if record.record == Denied {
        DropDenied(c);
        LastEvent(old(Now()), Now());
        return false, false, true;
      }
      return true, false, false;
    }

    /** The run of pages, from where it begins. */
    method ReadFromStart(c: nat, thread: bool) returns (raised: bool, ghost start: nat, ghost denied: bool)
      requires Valid() && seen <= Elements(queue) && c in pending && c in records && records[c] != Denied
      requires if thread then c !in watched && c in markers.threads else c in watched
      modifies `asks, `thrown, `refused, `posted, `windowStart, `due, `excused, `pending, `resumeAfter, `events
      modifies `queue, `seen, `marks, `droppedMarks, `handed, `settled, `late
      ensures Valid() && seen <= Elements(queue) && old(handed) <= handed && Continues(old(Past()), Past())
      ensures pending == old(pending) || pending == old(pending) - {c}
      ensures c !in pending ==> AllHandedIn(c)
      ensures c !in pending && !denied ==>
                forall p :: p in old(posted) && p.channel == c && p.id > start ==> p in handed
      ensures !denied ==> forall p :: p in excused && p !in old(excused) ==>
                p in inherited && old(InFirstWindow(c)) && p.id <= start
      ensures Attended(watched, old(Now()), Now(), c) && OnlyIn(watched, {c}, old(Now()), Now())
      ensures raised ==> SomeFailed(old(Now()), Now())
      ensures thrown == old(thrown) + (if raised then 1 else 0) && (quiet ==> !raised)
    {
      hide Valid, Continues, Owes, AllHandedIn, UnreadAbove, Excuses, Kept, Losing;
      hide Attended, HandedFrom, Place, OnlyIn, Stuck, SomeFailed;
      var first := StartOf(c, thread);
      start := first;
      Begin(c, thread);
      OnlyExcused(old(Past()));
      ghost var before, began := Past(), Now();
      if old(InFirstWindow(c)) { LastEvent(old(Now()), Now()); }
      raised, denied := ReadPages(c, thread, first);
      ContinuesOn(old(Past()), before, Past());
      if old(InFirstWindow(c)) { assert events[|old(events)|] == FirstWindow(c, first); }
      SinceEarlier(old(Now()), began, Now());
      if c in pending { StuckEarlier(old(Now()), began, Now(), c); }
      if raised { FailedEarlier(old(Now()), began, Now()); }
      RunAttended(watched, old(Now()), Now(), c, thread, first, denied);
      OnlyOne(watched, c, old(Now()), Now());
    }

    method ReadPages(c: nat, thread: bool, start: nat) returns (raised: bool, ghost denied: bool)
      requires Valid() && seen <= Elements(queue) && c in pending && UnreadAbove(c, start)
      requires c in resumeAfter ==> resumeAfter[c] == start
      modifies `asks, `thrown, `refused, `posted, `windowStart, `due, `excused, `pending, `resumeAfter, `events
      modifies `queue, `seen, `marks, `droppedMarks, `handed, `settled, `late
      ensures Valid() && seen <= Elements(queue) && old(handed) <= handed && Continues(old(Past()), Past())
      ensures pending == old(pending) || pending == old(pending) - {c}
      ensures c !in pending ==> AllHandedIn(c)
      ensures c !in pending && !denied ==>
                forall p :: p in old(posted) && p.channel == c && p.id > start ==> p in handed
      ensures !denied ==> excused.Keys <= old(excused).Keys
      ensures old(posted) <= posted && old(events) <= events && resumeAfter - {c} == old(resumeAfter) - {c}
      ensures denied ==> Since(old(Now()), Now(), Denial(c))
      ensures old(asks) <= asks && (c in pending ==> Stuck(old(Now()), Now(), c))
      ensures raised ==> SomeFailed(old(Now()), Now())
      ensures c in pending && c in old(resumeAfter) ==> c in resumeAfter
      ensures c in pending && c in resumeAfter ==>
                forall p :: p in old(posted) && p.channel == c && start < p.id <= resumeAfter[c] ==> p in handed
      ensures thrown == old(thrown) + (if raised then 1 else 0) && (quiet ==> !raised)
    {
      hide Valid, Continues, Owes;
      Unchanged();
      raised, denied := false, false;
      var after := start;
      for page := 0 to MAX_PAGES
        invariant Valid() && seen <= Elements(queue) && UnreadAbove(c, after)
        invariant c in pending && pending == old(pending) && (c in resumeAfter ==> resumeAfter[c] == after)
        invariant old(posted) <= posted && old(handed) <= handed && start <= after
        invariant Continues(old(Past()), Past()) && excused.Keys <= old(excused).Keys
        invariant events == old(events) && resumeAfter - {c} == old(resumeAfter) - {c}
        invariant c in old(resumeAfter) ==> c in resumeAfter
        invariant thrown == old(thrown)
        invariant old(asks) <= asks && PagesRead(asks, |old(asks)|, c) == page
        invariant forall p :: p in old(posted) && p.channel == c && start < p.id <= after ==> p in handed
      {
        ghost var before := Past();
        ghost var asked := asks;
        var step, next := TurnPage(c, thread, after);
        ContinuesOn(old(Past()), before, Past());
        OneMorePage(asked, asks[|asked|], |old(asks)|, c);
        if step != Again {
          if step == NoAccess { LastEvent(old(Now()), Now()); }
          LastAsk(old(Now()), Now(), c);
          return step == Failed, step == NoAccess;
        }
        after := next;
      }
    }

    lemma OnlyExcused(before: Log)
      requires before.due == due && before.settled == settled && before.events <= events
      ensures Continues(before, Past())
    {
    }

    /** The markers go to disk. */
    method Persist()
      requires Valid()
      modifies `saved, `unsaved
      ensures Valid() && saved == markers && unsaved == {}
    {
      hide ExcusesReal, CaughtUp, ResumesBelow, RunsUnderWay, AllPosted, MarksReal, NothingDropped, NotPassed;
      saved, unsaved := markers, {};
    }

    /** Markers after a floor was put below this id: an older floor stays. */
    function WithFloor(c: nat, floor: nat): Markers
      reads `markers
    {
      if c in markers.unresolved && markers.unresolved[c] <= floor then markers
      else markers.(unresolved := markers.unresolved[c := floor])
    }

    /** What was reached still is, and other channels are as before. */
    lemma FloorKeeps(c: nat, floor: nat)
      requires FloorsApart() && c !in watched
      ensures forall x :: x in WithFloor(c, floor).unresolved ==> x !in watched
      ensures forall p :: Reaches(markers, watched, p) ==> Reaches(WithFloor(c, floor), watched, p)
    {
    }

    /** A floor in memory, which its write has still to bring to disk. */
    method LowerFloor(c: nat, floor: nat)
      requires Valid() && c !in watched
      modifies `markers, `unsaved, `late
      ensures Valid() && markers == old(WithFloor(c, floor)) && unsaved == old(unsaved) + {c}
      ensures late == old(late) + set p | p in due && old(Owes(p)) && !NotPassed(markers, watched, p)
    {
      hide ExcusesReal, CaughtUp, ResumesBelow, RunsUnderWay, AllPosted, MarksReal, NothingDropped;
      var next := WithFloor(c, floor);
      FloorKeeps(c, floor);
      hide WithFloor, Reaches, NotPassed;
      markers, unsaved := next, unsaved + {c};
      late := late + set p | p in due && Owes(p) && !NotPassed(markers, watched, p);
    }

    /**
     A live message whose thread cannot be looked up now: a floor below it goes to disk, and the
     thread is pending until it can. The message is owed from here on, unless the thread's
     marker or page run was already past it when it came. The write can fail, and then the process goes
     on with the floor in memory only.
     */
    method RememberUnresolved(p: Post) returns (ok: bool)
      requires Valid() && p in posted && p.channel !in watched && p.id > 0
      modifies `markers, `saved, `pending, `due, `excused, `unsaved, `late
      ensures Valid() && p.channel in pending && Continues(old(Past()), Past()) && excused.Keys <= old(excused).Keys
      ensures p.channel in markers.unresolved && markers.unresolved[p.channel] < p.id
      ensures markers == old(WithFloor(p.channel, p.id - 1)) && pending == old(pending) + {p.channel}
      ensures ok ==> saved == markers && unsaved == {}
      ensures !ok ==> saved == old(saved) && unsaved == old(unsaved) + {p.channel}
      ensures (p in due && p !in excused)
              || (p.channel in markers.threads && p.id <= markers.threads[p.channel])
              || (p.channel in resumeAfter && p.id <= resumeAfter[p.channel])
      ensures quiet ==> ok
    {
      var fails: bool := *;
      ok := quiet || !fails;
      PutFloor(p);
      if ok { Persist(); }
    }

    /** The floor in memory, and what is owed by it. */
    method PutFloor(p: Post)
      requires Valid() && p in posted && p.channel !in watched && p.id > 0
      modifies `markers, `pending, `due, `excused, `unsaved, `late
      ensures Valid() && pending == old(pending) + {p.channel} && Continues(old(Past()), Past())
      ensures markers == old(WithFloor(p.channel, p.id - 1)) && unsaved == old(unsaved) + {p.channel}
      ensures excused.Keys <= old(excused).Keys
      ensures if Reaches(markers, watched, p) && (p.channel in resumeAfter ==> resumeAfter[p.channel] < p.id)
              then due.Keys == old(due).Keys + {p} && excused == old(excused) - {p}
              else due == old(due) && excused == old(excused)
    {
      hide Valid, Continues;
      Unchanged();
      LowerFloor(p.channel, p.id - 1);
      Enter({p.channel});
      if Reaches(markers, watched, p) && (p.channel in resumeAfter ==> resumeAfter[p.channel] < p.id) {
        Owe({p});
      }
    }

    /** A floor that is no thread's: what it kept is given up. */
    method DropFloor(t: nat)
      requires Valid() && t in markers.unresolved && t in records && !records[t].ThreadOf?
      modifies `markers, `pending, `excused, `events
      ensures Valid() && markers == old(markers).(unresolved := old(markers).unresolved - {t})
      ensures pending == old(pending) - {t} && events == old(events) + [NoThread(t)] && Kept(old(excused), excused)
      ensures excused.Keys == old(excused).Keys + old(Losing(NoThread(t)))
    {
      hide Valid;
      GiveUp(t, NoThread(t));
      Leave(t);
      var next := markers.(unresolved := markers.unresolved - {t});
      ReachedWithout(t, next);
      SetMarkers(next);
    }

    lemma ReachedWithout(t: nat, next: Markers)
      requires Valid() && next == markers.(unresolved := markers.unresolved - {t})
      requires forall p :: Owes(p) && p !in handed ==> p.channel != t
      ensures forall p :: Owes(p) && p !in handed ==> Reaches(next, watched, p)
      ensures forall p :: Owes(p) && p !in late ==> NotPassed(next, watched, p)
      ensures forall c :: c in next.unresolved ==> c !in watched
    {
    }

    method SetMarkers(next: Markers)
      requires Valid() && forall p :: Owes(p) && p !in handed ==> Reaches(next, watched, p)
      requires forall p :: Owes(p) && p !in late ==> NotPassed(next, watched, p)
      requires forall c :: c in next.unresolved ==> c !in watched
      modifies `markers
      ensures Valid() && markers == next
    {
      hide ExcusesReal, CaughtUp, ResumesBelow, RunsUnderWay, AllPosted, MarksReal, NothingDropped, Reaches, NotPassed;
      markers := next;
    }

    /** A floor becomes the marker of the thread it stood for. */
    method AdoptThread(t: nat)
      requires Valid() && t in markers.unresolved && t in records && records[t].ThreadOf?
      modifies `markers
      ensures Valid() && t in markers.threads && markers.unresolved == old(markers).unresolved - {t}
      ensures Kept(old(markers).threads, markers.threads)
      ensures forall c :: Place(markers, watched, c) == Place(old(markers), watched, c)
    {
      hide ExcusesReal, CaughtUp, ResumesBelow, RunsUnderWay, AllPosted, MarksReal, NothingDropped;
      var threads := if t in markers.threads then markers.threads else markers.threads[t := markers.unresolved[t]];
      markers := markers.(threads := threads, unresolved := markers.unresolved - {t});
    }

    /** Floors are tried one by one: each stays, goes, or becomes a thread's marker and is read from. */
    method RetryUnresolved(ghost was: Moment, ghost all: set<nat>, ghost attended: set<nat>) returns (raised: bool)
      requires Valid() && seen <= Elements(queue) && markers.unresolved.Keys <= all
      requires Reading(watched, was, Now(), all, attended)
      modifies `asks, `thrown, `refused, `posted, `windowStart, `due, `excused, `pending, `resumeAfter, `records,
        `markers, `events
      modifies `queue, `seen, `marks, `droppedMarks, `handed, `settled, `late
      ensures Valid() && seen <= Elements(queue) && old(handed) <= handed && Continues(old(Past()), Past())
      ensures AllCovered(watched, was, Now(), all, attended + if raised then {} else old(markers).unresolved.Keys)
      ensures raised ==> SomeFailed(was, Now())
      ensures thrown == old(thrown) + (if raised then 1 else 0) && (quiet ==> !raised)
    {
      hide Valid, Elements, Continues, Covered, Attended, Done, Place, SomeFailed;
      Unchanged();
      var rest := markers.unresolved.Keys;
      ghost var done := attended;
      while rest != {}
        invariant Valid() && seen <= Elements(queue) && old(handed) <= handed && Continues(old(Past()), Past())
        invariant rest <= markers.unresolved.Keys && rest <= old(markers).unresolved.Keys
        invariant Reading(watched, was, Now(), all, done) && attended + (old(markers).unresolved.Keys - rest) <= done
        invariant thrown == old(thrown)
        decreases rest
      {
        var t :| t in rest;
        rest := rest - {t};
        ghost var before := Past();
        raised := RetryOne(t, was, all, done);
        ContinuesOn(old(Past()), before, Past());
        done := done + {t};
        if raised { return; }
      }
      return false;
    }

    method RetryOne(t: nat, ghost was: Moment, ghost all: set<nat>, ghost attended: set<nat>) returns (raised: bool)
      requires Valid() && seen <= Elements(queue) && t in markers.unresolved && t in all
      requires Reading(watched, was, Now(), all, attended)
      modifies `asks, `thrown, `refused, `posted, `windowStart, `due, `excused, `pending, `resumeAfter, `records,
        `markers, `events
      modifies `queue, `seen, `marks, `droppedMarks, `handed, `settled, `late
      ensures Valid() && seen <= Elements(queue) && old(handed) <= handed && Continues(old(Past()), Past())
      ensures Reading(watched, was, Now(), all, attended + {t})
      ensures markers.unresolved.Keys == old(markers).unresolved.Keys
              || markers.unresolved.Keys == old(markers).unresolved.Keys - {t}
      ensures raised ==> SomeFailed(was, Now())
      ensures thrown == old(thrown) + (if raised then 1 else 0) && (quiet ==> !raised)
    {
      hide Valid, Elements, Continues, Reading, SomeFailed;
      Unchanged();
      var record := ChannelRecord(t, true);
      raised := false;
      if !record.Found? {
        FloorStays(was, old(Now()), Now(), all, attended, t);
        raised := record.Fatal?;
      } else if !record.record.ThreadOf? {
        DropFloor(t);
        OnlyExcused(old(Past()));
        FloorGoes(was, old(Now()), Now(), all, attended, t);
      } else {
        LookupPasses(was, old(Now()), Now(), all, attended);
        raised := AdoptAndRead(t, was, all, attended);
      }
    }

    lemma LookupPasses(was: Moment, mid: Moment, now: Moment, all: set<nat>, attended: set<nat>)
      requires Reading(watched, was, mid, all, attended) && now == mid.(asks := now.asks) && mid.asks <= now.asks
      ensures Reading(watched, was, now, all, attended)
    {
      hide Place, HandedFrom, Covered, Attended;
      AllLeftAlone(watched, was, mid, now, all, attended);
      forall c | c in all ensures Done(watched, was, now, c) || SamePlace(watched, was, now, c) {
        LeftAlone(watched, was, mid, now, c);
      }
    }

    lemma FloorStays(was: Moment, mid: Moment, now: Moment, all: set<nat>, attended: set<nat>, t: nat)
      requires Reading(watched, was, mid, all, attended) && t in all
      requires now == mid.(asks := mid.asks + [Looks(t, false)])
      ensures Reading(watched, was, now, all, attended + {t}) && SomeFailed(was, now)
    {
      hide Covered, HandedFrom, Place;
      LastAsk(was, now, t);
      LeftAlone(watched, was, mid, now, t);
      assert Attended(watched, was, now, t);
      OneMoreAttended(watched, was, mid, now, all, attended, t);
    }

    lemma FloorGoes(was: Moment, mid: Moment, now: Moment, all: set<nat>, attended: set<nat>, t: nat)
      requires Reading(watched, was, mid, all, attended) && t in all && t in mid.markers.unresolved
      requires now.markers == mid.markers.(unresolved := mid.markers.unresolved - {t})
      requires mid.asks <= now.asks && now.events == mid.events + [NoThread(t)] && now.pending == mid.pending - {t}
      requires now.posted == mid.posted && now.handed == mid.handed && now.resumeAfter == mid.resumeAfter
      ensures Reading(watched, was, now, all, attended + {t})
    {
      LastEvent(was, now);
      assert Done(watched, was, now, t);
      assert OnlyIn(watched, {t}, mid, now);
      hide Covered, HandedFrom, Place, Done;
      AttendedWhenDone(was, now, t);
      OneMoreAttended(watched, was, mid, now, all, attended, t);
    }

    lemma AttendedWhenDone(was: Moment, now: Moment, t: nat)
      requires Done(watched, was, now, t)
      ensures Attended(watched, was, now, t)
    {
    }

    /** The floor becomes the thread's marker, and the thread is read from there. */
    method AdoptAndRead(t: nat, ghost was: Moment, ghost all: set<nat>, ghost attended: set<nat>) returns (raised: bool)
      requires Valid() && seen <= Elements(queue) && t in markers.unresolved && t in all
      requires t in records && records[t].ThreadOf?
      requires Reading(watched, was, Now(), all, attended)
      modifies `asks, `thrown, `refused, `posted, `windowStart, `due, `excused, `pending, `resumeAfter, `records,
        `markers, `events
      modifies `queue, `seen, `marks, `droppedMarks, `handed, `settled, `late
      ensures Valid() && seen <= Elements(queue) && old(handed) <= handed && Continues(old(Past()), Past())
      ensures Reading(watched, was, Now(), all, attended + {t})
      ensures markers.unresolved.Keys == old(markers).unresolved.Keys - {t}
      ensures raised ==> SomeFailed(was, Now())
      ensures thrown == old(thrown) + (if raised then 1 else 0) && (quiet ==> !raised)
    {
      hide Valid, Elements, Continues, Reading, SomeFailed;
      FloorUnwatched(t);
      AdoptThread(t);
      Enter({t});
      StillReading(was, old(Now()), Now(), all, attended, t);
      raised := ReadOne(t, true, was, all, attended);
    }

    lemma StillReading(was: Moment, mid: Moment, now: Moment, all: set<nat>, attended: set<nat>, t: nat)
      requires Reading(watched, was, mid, all, attended)
      requires now == mid.(markers := now.markers, pending := mid.pending + {t})
      requires forall c :: Place(now.markers, watched, c) == Place(mid.markers, watched, c)
      ensures Reading(watched, was, now, all, attended)
    {
      hide Place, HandedFrom, Covered, Attended;
      AllLeftAlone(watched, was, mid, now, all, attended);
      forall c | c in all ensures Done(watched, was, now, c) || SamePlace(watched, was, now, c) {
        LeftAlone(watched, was, mid, now, c);
      }
    }

    lemma FloorUnwatched(t: nat)
      requires Valid() && t in markers.unresolved
      ensures t !in watched
    {
    }

    /** One more channel of a catch-up is read. */
    method ReadOne(c: nat, thread: bool, ghost was: Moment, ghost all: set<nat>, ghost attended: set<nat>)
      returns (raised: bool)
      requires Valid() && seen <= Elements(queue) && c in all && Reading(watched, was, Now(), all, attended)
      requires if thread then c !in watched && c in markers.threads else c in watched
      modifies `asks, `thrown, `refused, `posted, `windowStart, `due, `excused, `pending, `resumeAfter, `records,
        `events
      modifies `queue, `seen, `marks, `droppedMarks, `handed, `settled, `late
      ensures Valid() && seen <= Elements(queue) && old(handed) <= handed && Continues(old(Past()), Past())
      ensures Reading(watched, was, Now(), all, attended + {c}) && (raised ==> SomeFailed(was, Now()))
      ensures thrown == old(thrown) + (if raised then 1 else 0) && (quiet ==> !raised)
    {
      hide Valid, Elements, Continues, Reading;
      ghost var start, denied;
      raised, start, denied := ReadHistory(c, thread);
      OneRead(was, old(Now()), Now(), all, attended, c);
    }

    lemma OneRead(was: Moment, mid: Moment, now: Moment, all: set<nat>, attended: set<nat>, c: nat)
      requires Reading(watched, was, mid, all, attended) && c in all
      requires OnlyIn(watched, {c}, mid, now) && Attended(watched, mid, now, c) && now.markers == mid.markers
      ensures Reading(watched, was, now, all, attended + {c})
      ensures SomeFailed(mid, now) ==> SomeFailed(was, now)
    {
      hide Covered, Attended, HandedFrom, Place;
      ReadOn(watched, was, mid, now, c);
      if Done(watched, was, mid, c) { DoneLater(watched, was, mid, now, c); }
      OneMoreAttended(watched, was, mid, now, all, attended, c);
    }

    method ReadHistories(
        channels: set<nat>, thread: bool, ghost was: Moment, ghost all: set<nat>, ghost attended: set<nat>)
      returns (raised: bool)
      requires Valid() && seen <= Elements(queue) && channels <= all && Reading(watched, was, Now(), all, attended)
      requires forall c :: c in channels ==> if thread then c !in watched && c in markers.threads else c in watched
      modifies `asks, `thrown, `refused, `posted, `windowStart, `due, `excused, `pending, `resumeAfter, `records,
        `events
      modifies `queue, `seen, `marks, `droppedMarks, `handed, `settled, `late
      ensures Valid() && seen <= Elements(queue) && old(handed) <= handed && Continues(old(Past()), Past())
      ensures if raised then AllCovered(watched, was, Now(), all, {}) && SomeFailed(was, Now())
              else Reading(watched, was, Now(), all, attended + channels)
      ensures thrown == old(thrown) + (if raised then 1 else 0) && (quiet ==> !raised)
    {
      hide Valid, Elements, Continues, Covered, Attended, Done, Place, SomeFailed;
      Unchanged();
      var rest := channels;
      assert attended + (channels - rest) == attended;
      while rest != {}
        invariant Valid() && seen <= Elements(queue) && old(handed) <= handed && Continues(old(Past()), Past())
        invariant rest <= channels && Reading(watched, was, Now(), all, attended + (channels - rest))
        invariant thrown == old(thrown)
        decreases rest
      {
        var c :| c in rest;
        ghost var before := Past();
        raised := ReadOne(c, thread, was, all, attended + (channels - rest));
        assert attended + (channels - rest) + {c} == attended + (channels - (rest - {c}));
        rest := rest - {c};
        ContinuesOn(old(Past()), before, Past());
        if raised { return; }
      }
      assert attended + (channels - {}) == attended + channels;
      return false;
    }

    /** What a catch-up reads: everything, or only what is pending, mid-run or below a floor. */
    ghost function Wanted(full: bool): set<nat>
      reads `pending, `resumeAfter, `markers
    {
      var all := watched + markers.threads.Keys + markers.unresolved.Keys;
      if full then all else all * (pending + resumeAfter.Keys + markers.unresolved.Keys)
    }

    /** All that is to be read is pending before the first read. On a new connection that is everything. */
    method List(cs: set<nat>, full: bool)
      requires Valid() && (full ==> watched + markers.threads.Keys + markers.unresolved.Keys <= cs)
      modifies `pending, `listed
      ensures Valid() && pending == old(pending) + cs && listed == (old(listed) || full)
    {
      hide ExcusesReal, NothingPassed, ResumesBelow, RunsUnderWay, FloorsApart, AllPosted, MarksReal, NothingDropped;
      hide NotPassed;
      pending := pending + cs;
      listed := listed || full;
    }

    /**
     Every history on a new connection; otherwise only what is pending, mid-run or below a floor.
     All of it is pending before the first read. Unless a call fails, every channel is read to the end of
     what the platform held, or as far as the platform lets it be.
     */
    method CatchUp(full: bool) returns (raised: bool)
      requires Valid() && seen <= Elements(queue)
      modifies `asks, `thrown, `refused, `posted, `windowStart, `due, `excused, `pending, `resumeAfter, `records,
        `markers, `events, `listed
      modifies `queue, `seen, `marks, `droppedMarks, `handed, `settled, `late
      ensures Valid() && seen <= Elements(queue) && old(handed) <= handed && Continues(old(Past()), Past())
      ensures listed == (old(listed) || full)
      ensures AllCovered(watched, old(Now()), Now(), old(Wanted(full)), if raised then {} else old(Wanted(full)))
      ensures raised ==> SomeFailed(old(Now()), Now())
      ensures thrown == old(thrown) + (if raised then 1 else 0) && (quiet ==> !raised)
    {
      hide Valid, Elements, Continues, Covered, Attended, Done, Place, SomeFailed;
      Unchanged();
      var wanted := pending + resumeAfter.Keys + markers.unresolved.Keys;
      if !full && wanted == {} { return false; }
      var channels := if full then watched else watched * wanted;
      var threads := set c | c in markers.threads && c !in watched && (full || c in wanted);
      ghost var all, was := Wanted(full), Now();
      assert all == channels + threads + markers.unresolved.Keys;
      List(channels + threads + markers.unresolved.Keys, full);
      BeginsReading(watched, was, Now(), all);
      raised := ReadListed(channels, threads, was, all);
    }

    /** The allowlist's channels, then the threads, then the floors, until a call fails for good. */
    method ReadListed(channels: set<nat>, threads: set<nat>, ghost was: Moment, ghost all: set<nat>)
      returns (raised: bool)
      requires Valid() && seen <= Elements(queue) && Reading(watched, was, Now(), all, {})
      requires all == channels + threads + markers.unresolved.Keys && channels <= watched
      requires threads <= markers.threads.Keys - watched
      modifies `asks, `thrown, `refused, `posted, `windowStart, `due, `excused, `pending, `resumeAfter, `records,
        `markers, `events
      modifies `queue, `seen, `marks, `droppedMarks, `handed, `settled, `late
      ensures Valid() && seen <= Elements(queue) && old(handed) <= handed && Continues(old(Past()), Past())
      ensures AllCovered(watched, was, Now(), all, if raised then {} else all)
      ensures raised ==> SomeFailed(was, Now())
      ensures thrown == old(thrown) + (if raised then 1 else 0) && (quiet ==> !raised)
    {
      hide Valid, Elements, Continues, Covered, Attended, Done, Place, SomeFailed, SamePlace, Onward;
      raised := ReadHistories(channels, false, was, all, {});
      if raised { return; }
      ghost var before := Past();
      raised := ReadHistories(threads, true, was, all, {} + channels);
      ContinuesOn(old(Past()), before, Past());
      if raised { return; }
      before := Past();
      raised := RetryUnresolved(was, all, {} + channels + threads);
      ContinuesOn(old(Past()), before, Past());
    }

    /** What is known of the channel of a message now. */
    predicate IsThread(c: nat)
      reads `records
    {
      c in records && records[c].ThreadOf?
    }

    /** The message is queued if it is mail, and settled if not, with its own mark. */
    ghost predicate Took(p: Post, mail: bool, mark: Mark, before: set<Post>)
      reads `queue, `marks, `settled, `droppedMarks, `handed
    {
      && p in handed && mark.post == p
      && if mail then p in queue && (p !in before ==> p in marks && marks[p] == mark)
         else p in settled && mark in droppedMarks
    }

    /** The message lies above a floor, in memory and on disk, and its channel is pending. */
    ghost predicate Floored(p: Post)
      reads `pending, `markers, `saved
    {
      && p.channel in pending
      && p.channel in markers.unresolved && markers.unresolved[p.channel] < p.id
      && p.channel in saved.unresolved && saved.unresolved[p.channel] < p.id
    }

    /** Floors in memory only come or sink, and the disk is as it was or as memory is. */
    ghost predicate FloorsStay(before: Markers, disk: Markers)
      reads `markers, `saved
    {
      && (forall c :: c in before.unresolved ==>
           c in markers.unresolved && markers.unresolved[c] <= before.unresolved[c])
      && (saved == disk || saved == markers)
    }

    /**
     A gateway message: its thread is looked up before it is taken in, if it may be of one. It fails when
     the lookup is refused for good, and when the floor cannot be written.
     */
    method LiveMessage(p: Post, candidate: bool, mail: bool) returns (ok: bool, below: bool)
      requires Valid() && seen <= Elements(queue)
      modifies `asks, `thrown, `posted, `due, `excused, `pending, `records, `markers, `saved, `unsaved
      modifies `queue, `seen, `marks, `droppedMarks, `handed, `settled, `late
      ensures Valid() && seen <= Elements(queue) && Continues(old(Past()), Past()) && excused.Keys <= old(excused).Keys
      ensures (ok && below ==> Floored(p)) && FloorsStay(old(markers), old(saved))
      ensures ok && !below ==>
                Took(p, mail, Mark(p, candidate && p.channel !in watched && IsThread(p.channel)), old(seen))
      ensures below ==> candidate && p.channel !in watched && p.channel !in records
      ensures quiet ==> ok && !below
      ensures Onward(old(Now()), Now()) && old(pending) <= pending && (forall q :: q in old(queue) ==> q in queue)
      ensures old(settled) <= settled && old(handed) <= handed
      ensures thrown > old(thrown) ==> !ok
      ensures ok && !below && candidate && p.channel !in watched && p.id > 0 ==> p.channel in records
    {
      hide Valid, Elements, Continues, NotPassed, Reaches, Took, Floored, FloorsStay, IsThread, Onward;
      Arrive(p);
      Arrived(p, old(Past()), old(Now()));
      ghost var before, mid := Past(), Now();
      var found := FindThread(p, candidate);
      ContinuesOn(old(Past()), before, Past());
      OnwardOn(old(Now()), mid, Now());
      if !found.Known? { return found.Below?, found.Below?; }
      TakeIn(p, mail, Mark(p, found.thread), old(markers), old(saved), old(Past()), old(Now()));
      return true, false;
    }

    lemma Arrived(p: Post, before: Log, was: Moment)
      requires before == Past() && Now() == was.(posted := was.posted + [p])
      ensures Continues(before, Past()) && Onward(was, Now())
    {
    }

    /** The message is known to belong here, or to that thread. */
    method TakeIn(
        p: Post, mail: bool, mark: Mark, ghost before: Markers, ghost disk: Markers, ghost past: Log, ghost was: Moment)
      requires Valid() && seen <= Elements(queue) && p in posted && mark.post == p && FloorsStay(before, disk)
      requires Continues(past, Past()) && Onward(was, Now())
      modifies `queue, `seen, `marks, `droppedMarks, `handed, `settled, `due, `excused, `late
      ensures Valid() && seen <= Elements(queue) && Continues(past, Past()) && Onward(was, Now())
      ensures excused.Keys <= old(excused).Keys && Took(p, mail, mark, old(seen)) && FloorsStay(before, disk)
      ensures (forall q :: q in old(queue) ==> q in queue) && old(settled) <= settled && old(handed) <= handed
    {
      hide Valid, Elements, Continues, NotPassed, FloorsStay;
      ghost var mid := Past();
      Ingest(p, mail, mark);
      ContinuesOn(past, mid, Past());
    }

    /** Whether a live message belongs to a thread; where that cannot be told now, it goes below a floor. */
    method FindThread(p: Post, candidate: bool) returns (found: Whereabouts)
      requires Valid() && p in posted
      modifies `asks, `thrown, `due, `excused, `pending, `records, `markers, `saved, `unsaved, `late
      ensures Valid() && Continues(old(Past()), Past()) && excused.Keys <= old(excused).Keys
      ensures Onward(old(Now()), Now()) && old(pending) <= pending && (quiet ==> found.Known?)
      ensures (found.Below? ==> Floored(p)) && FloorsStay(old(markers), old(saved))
      ensures found.Below? ==> candidate && p.channel !in watched && p.channel !in records
      ensures found.Known? ==> found.thread == (candidate && p.channel !in watched && IsThread(p.channel))
      ensures thrown > old(thrown) ==> found.Lost?
      ensures found.Known? && candidate && p.channel !in watched && p.id > 0 ==> p.channel in records
    {
      hide Valid, Continues, NotPassed, Reaches;
      Unchanged();
      if p.channel in watched || !candidate { return Known(false); }
      var record := ChannelRecord(p.channel, true);
      if record.Fatal? { return Lost; }
      if !record.Found? && p.id > 0 {
        found := GoBelow(p);
        return;
      }
      return Known(record.Found? && record.record.ThreadOf?);
    }

    method GoBelow(p: Post) returns (found: Whereabouts)
      requires Valid() && p in posted && p.channel !in watched && p.id > 0
      modifies `markers, `saved, `pending, `due, `excused, `unsaved, `late
      ensures Valid() && Continues(old(Past()), Past()) && excused.Keys <= old(excused).Keys
      ensures (found == Below && Floored(p)) || (found == Lost && !quiet)
      ensures FloorsStay(old(markers), old(saved)) && old(pending) <= pending
      ensures Now() == old(Now()).(markers := markers, pending := pending)
    {
      hide Valid, Continues, NotPassed, Reaches;
      var ok := RememberUnresolved(p);
      return if ok then Below else Lost;
    }

    method Arrive(p: Post)
      requires Valid()
      modifies `posted
      ensures Valid() && posted == old(posted) + [p]
    {
      hide ExcusesReal, NothingPassed, NothingUnreachable, CaughtUp, ResumesBelow, RunsUnderWay, FloorsApart;
      hide MarksReal, NothingDropped;
      posted := posted + [p];
    }

    /** Items of a fetch whose cycle never reached confirm go again, each once and in their order. */
    method RequeueInflight()
      requires Valid() && seen == {}
      modifies `queue, `seen, `inflight
      ensures Valid() && seen <= Elements(queue) && inflight == []
      ensures queue == old(queue) + Distinct(old(inflight)) && seen == Elements(old(inflight))
    {
      hide Valid, Distinct;
      assert inflight[..0] == [] && Distinct<Post>([]) == [] by { NothingTwice(); }
      for i := 0 to |inflight|
        invariant Valid() && inflight == old(inflight)
        invariant queue == old(queue) + Distinct(inflight[..i]) && seen == Elements(inflight[..i])
      {
        assert inflight[..i + 1] == inflight[..i] + [inflight[i]];
        OneMoreDistinct(inflight[..i], inflight[i]);
        Requeue(inflight[i]);
      }
      assert inflight[..|inflight|] == inflight;
      InflightQueued(old(queue));
      ForgetInflight();
    }

    lemma NothingTwice()
      ensures Distinct<Post>([]) == []
    {
    }

    method Requeue(p: Post)
      requires Valid()
      modifies `queue, `seen
      ensures Valid() && queue == old(queue) + (if p in old(seen) then [] else [p]) && seen == old(seen) + {p}
    {
      hide ExcusesReal, NothingPassed, NothingUnreachable, CaughtUp, ResumesBelow, RunsUnderWay, FloorsApart;
      hide AllPosted, MarksReal;
      if p !in seen {
        seen := seen + {p};
        queue := queue + [p];
      }
    }

    lemma InflightQueued(before: seq<Post>)
      requires queue == before + Distinct(inflight)
      ensures forall p :: p in inflight ==> p in queue
      ensures Elements(inflight) <= Elements(queue)
    {
      forall p | p in inflight ensures p in queue {
        assert p in Elements(inflight) && p in Elements(Distinct(inflight));
      }
    }

    method ForgetInflight()
      requires Valid() && forall p :: p in inflight ==> p in queue
      modifies `inflight
      ensures Valid() && inflight == []
    {
      hide ExcusesReal, NothingPassed, NothingUnreachable, CaughtUp, ResumesBelow, RunsUnderWay, FloorsApart;
      hide AllPosted, MarksReal;
      inflight := [];
    }

    /** A live message was taken in: mail is queued, anything else settled, or its floor is on disk. */
    ghost predicate Came(f: Live)
      reads `queue, `settled, `handed, `pending, `markers, `saved
    {
      f.Message? ==>
        (f.post in handed && if f.mail then f.post in queue else f.post in settled) || Floored(f.post)
    }

    ghost predicate AllCame(n: nat)
      reads `queue, `settled, `handed, `pending, `markers, `saved, `frames
    {
      n <= |frames| && forall i :: n <= i < |frames| ==> Came(frames[i])
    }

    /** The next thing on the gateway. */
    method Hear() returns (f: Live)
      modifies `frames
      ensures frames == old(frames) + [f]
    {
      f := *;
      frames := frames + [f];
    }

    /** One frame, and what there is to be done about it. */
    method ReadFrame(ghost n: nat) returns (ok: bool)
      requires Valid() && seen <= Elements(queue) && AllCame(n)
      modifies `asks, `thrown, `posted, `due, `excused, `pending, `records, `markers, `saved, `unsaved, `frames
      modifies `queue, `seen, `marks, `droppedMarks, `handed, `settled, `late
      ensures Valid() && seen <= Elements(queue) && Continues(old(Past()), Past())
      ensures Onward(old(Now()), Now()) && old(pending) <= pending
      ensures n <= |frames| && (ok ==> AllCame(n)) && (quiet ==> ok)
    {
      hide Valid, Elements, Continues, Onward;
      Unchanged();
      NoStep();
      var f := Hear();
      ok := true;
      if f.Message? {
        ghost var below;
        ok, below := LiveMessage(f.post, f.candidate, f.mail);
      }
    }

    lemma NoStep()
      ensures Onward(Now(), Now())
    {
    }

    /** Live messages, until the poll is over or the connection fails. */
    method ReadLive(ghost n: nat) returns (raised: bool)
      requires Valid() && seen <= Elements(queue) && AllCame(n) && open
      modifies `asks, `thrown, `open, `posted, `due, `excused, `pending, `records, `markers, `saved, `unsaved, `frames,
        `polls
      modifies `queue, `seen, `marks, `droppedMarks, `handed, `settled, `late
      ensures Valid() && seen <= Elements(queue) && Continues(old(Past()), Past())
      ensures Onward(old(Now()), Now()) && old(pending) <= pending
      ensures if raised then !quiet else open == old(open) && AllCame(n)
      ensures polls == old(polls) + 1
    {
      hide Valid, Elements, Continues, AllCame, Came, Onward, Now, Past;
      Unchanged();
      NoStep();
      polls := polls + 1;
      var more: nat :| true;
      for i := 0 to more
        invariant Valid() && seen <= Elements(queue) && Continues(old(Past()), Past()) && AllCame(n)
        invariant polls == old(polls) + 1
        invariant Onward(old(Now()), Now()) && old(pending) <= pending && open == old(open)
      {
        ghost var before, mid := Past(), Now();
        var ok := ReadFrame(n);
        ContinuesOn(old(Past()), before, Past());
        OnwardOn(old(Now()), mid, Now());
        if !ok {
          var drops: bool := *;
          if drops { open := false; }
          return true;
        }
      }
      var fails: bool, closes: bool := *, *;
      raised := fails && !quiet;
      if raised && closes { open := false; }
    }

    /** Whether the last heartbeat was answered in time. */
    method AckIsFresh() returns (answered: bool)
      modifies `acks
      ensures acks == old(acks) + [answered] && (quiet ==> answered)
    {
      var stale: bool := *;
      answered := quiet || !stale;
      acks := acks + [answered];
    }

    method TakeQueue() returns (items: seq<Post>)
      requires Valid() && inflight == []
      modifies `queue, `inflight
      ensures Valid() && queue == [] && items == inflight == old(queue)
    {
      hide ExcusesReal, NothingPassed, NothingUnreachable, CaughtUp, ResumesBelow, RunsUnderWay, FloorsApart;
      hide AllPosted, MarksReal;
      items := queue;
      queue, inflight := [], items;
    }

    /** A connect that fails may leave its socket open. */
    method Connect() returns (ok: bool)
      requires Valid()
      modifies `open, `dials
      ensures Valid() && dials == old(dials) + [ok] && (ok ==> open) && (quiet ==> ok)
    {
      hide Valid;
      var fails: bool, opens: bool := *, *;
      ok, open := quiet || !fails, opens;
      if ok { open := true; }
      dials := dials + [ok];
    }

    /** The last connect went through. */
    ghost predicate Dialled()
      reads `dials
    {
      dials != [] && dials[|dials| - 1]
    }

    /** A connection, if there is none, and the catch-up: in full on a new one. */
    method Reconnect() returns (deferred: bool)
      requires Valid() && seen <= Elements(queue)
      modifies `asks, `thrown, `refused, `posted, `windowStart, `due, `excused, `pending, `resumeAfter, `records,
        `markers, `events, `listed
      modifies `queue, `seen, `marks, `droppedMarks, `handed, `settled, `late, `open, `dials
      ensures Valid() && seen <= Elements(queue) && Continues(old(Past()), Past())
      ensures old(open) ==> dials == old(dials)
      ensures !old(open) ==> |dials| == |old(dials)| + 1 && old(dials) <= dials
      ensures !old(open) && Dialled() ==> listed
      ensures old(open) || Dialled() ==> CaughtUpSince(watched, old(Now()), Now(), old(Wanted(!open)))
      ensures deferred <==> thrown > old(thrown) || (!old(open) && !Dialled())
      ensures old(thrown) <= thrown && (!deferred ==> open) && (quiet ==> !deferred)
    {
      hide Valid, Elements, Continues, AllCovered;
      Unchanged();
      var reconnecting := !open;
      if reconnecting {
        var ok := Connect();
        if !ok { return true; }
      }
      deferred := CatchUp(reconnecting);
      NoneOf(old(Now()), Now(), old(Wanted(!open)));
    }

    lemma NoneOf(was: Moment, now: Moment, all: set<nat>)
      ensures AllCovered(watched, was, now, all, all) ==> AllCovered(watched, was, now, all, {})
    {
    }

    /**
     One fetch. An error of the connection or the catch-up is held back while the gateway is read. After a
     connect that went through, everything was listed, and read as far as the platform let it be; on a
     connection that was open, what was pending was.
     */
    method Fetch() returns (ok: bool, items: seq<Post>)
      requires Valid()
      modifies this
      ensures Valid() && Continues(old(Past()), Past())
      ensures ok ==> queue == [] && items == inflight
      ensures ok && items == [] ==> open && Acked(|old(acks)|)
      ensures quiet ==> ok && open
      ensures old(open) ==> dials == old(dials)
      ensures !old(open) ==> |dials| == |old(dials)| + 1 && old(dials) <= dials
      ensures !old(open) && Dialled() ==> listed
      ensures old(open) || Dialled() ==> CaughtUpSince(watched, old(Now()), Now(), old(Wanted(!open)))
    {
      hide Valid, Elements, Continues, CaughtUpSince, Onward, Wanted;
      var deferred := Start();
      ghost var before, mid := Past(), Now();
      ok, items := Listen(deferred);
      ContinuesOn(old(Past()), before, Past());
      if old(open) || Dialled() { CaughtUpLater(watched, old(Now()), mid, Now(), old(Wanted(!open))); }
    }

    /** What the last cycle did not confirm is queued again, and the catch-up begins. */
    method Start() returns (deferred: bool)
      requires Valid()
      modifies `asks, `thrown, `refused, `posted, `windowStart, `due, `excused, `pending, `resumeAfter, `records,
        `markers, `events, `listed
      modifies `queue, `seen, `marks, `droppedMarks, `handed, `settled, `late, `open, `dials, `inflight
      ensures Valid() && seen <= Elements(queue) && Continues(old(Past()), Past()) && inflight == []
      ensures old(open) ==> dials == old(dials)
      ensures !old(open) ==> |dials| == |old(dials)| + 1 && old(dials) <= dials
      ensures !old(open) && Dialled() ==> listed
      ensures old(open) || Dialled() ==> CaughtUpSince(watched, old(Now()), Now(), old(Wanted(!open)))
      ensures deferred <==> thrown > old(thrown) || (!old(open) && !Dialled())
      ensures old(thrown) <= thrown && (!deferred ==> open) && (quiet ==> !deferred)
    {
      hide Valid, Elements, Continues, CaughtUpSince, Wanted;
      seen := {};
      RequeueInflight();
      assert Now() == old(Now()) && Past() == old(Past()) && Wanted(!open) == old(Wanted(!open));
      deferred := Reconnect();
    }

    /**
     What arrives live, and all that is queued; or the error that was held back. Everything that came is
     taken in, and a fetch that returns nothing has a connection whose heartbeat is answered.
     */
    method Listen(deferred: bool) returns (ok: bool, items: seq<Post>)
      requires Valid() && seen <= Elements(queue) && inflight == []
      modifies `asks, `thrown, `open, `posted, `due, `excused, `pending, `records, `markers, `saved, `unsaved
      modifies `queue, `seen, `marks, `droppedMarks, `handed, `settled, `late, `inflight, `frames, `acks, `polls
      ensures Valid() && Continues(old(Past()), Past()) && (ok ==> queue == [] && items == inflight)
      ensures Onward(old(Now()), Now()) && old(pending) <= pending
      ensures ok && items == [] ==> (deferred ==> open) && Acked(|old(acks)|)
      ensures ok ==> forall i :: |old(frames)| <= i < |frames| && frames[i].Message? ==>
                Floored(frames[i].post) || if frames[i].mail then frames[i].post in items else frames[i].post in settled
      ensures (ok ==> open == old(open)) && (quiet && !deferred && old(open) ==> ok)
      ensures ok && old(open) ==> polls == old(polls) + 1
      ensures ok && items != [] ==> acks == old(acks)
    {
      hide Valid, Elements, Continues, AllCame, Onward, Floored;
      ghost var n := |frames|;
      ok := Attend(deferred);
      if !ok { return false, []; }
      CameIsKnown(n);
      items := TakeQueue();
      return true, items;
    }

    ghost predicate Acked(n: nat)
      reads `acks
    {
      |acks| == n + 1 && acks[n]
    }

    /** The gateway is read, unless the error is fatal or there is none. */
    method Attend(deferred: bool) returns (ok: bool)
      requires Valid() && seen <= Elements(queue)
      modifies `asks, `thrown, `open, `posted, `due, `excused, `pending, `records, `markers, `saved, `unsaved
      modifies `queue, `seen, `marks, `droppedMarks, `handed, `settled, `late, `frames, `acks, `polls
      ensures Valid() && Continues(old(Past()), Past())
      ensures Onward(old(Now()), Now()) && old(pending) <= pending
      ensures ok ==> AllCame(|old(frames)|)
      ensures ok && queue == [] ==> (deferred ==> open) && Acked(|old(acks)|)
      ensures (ok ==> open == old(open)) && (quiet && !deferred && old(open) ==> ok)
      ensures ok && old(open) ==> polls == old(polls) + 1
      ensures queue != [] ==> acks == old(acks)
    {
      hide Valid, Elements, Continues, AllCame, Onward;
      Unchanged();
      NoStep();
      NothingCame();
      ghost var n := |frames|;
      var fatal: bool := *;
      if deferred && fatal { return false; }
      if open {
        var raised := ReadLive(n);
        if raised { return false; }
      }
      if deferred && queue == [] && !open { return false; }
      ok := true;
      if queue == [] { ok := AckIsFresh(); }
    }

    lemma NothingCame()
      ensures AllCame(|frames|)
    {
    }

    lemma CameIsKnown(n: nat)
      requires AllCame(n)
      ensures n <= |frames| && forall i :: n <= i < |frames| && frames[i].Message? ==>
                Floored(frames[i].post) || if frames[i].mail then frames[i].post in queue else frames[i].post in settled
    {
    }

    method Ack(p: Post)
      requires Valid() && p in inflight
      modifies `staged, `settled
      ensures Valid() && settled == old(settled) + {p} && staged == old(staged) + [p]
    {
      Settle(p);
      hide ExcusesReal, NothingPassed, NothingUnreachable, CaughtUp, ResumesBelow, RunsUnderWay, FloorsApart;
      hide AllPosted, NothingDropped;
      staged := staged + [p];
    }

    function MarksOf(posts: seq<Post>): (r: seq<Mark>)
      reads `marks
      ensures forall m :: m in r ==> exists p :: p in posts && p in marks && m == marks[p]
    {
      if posts == [] then []
      else
        assert posts == posts[..|posts| - 1] + [posts[|posts| - 1]];
        MarksOf(posts[..|posts| - 1]) + if posts[|posts| - 1] in marks then [marks[posts[|posts| - 1]]] else []
    }

    ghost predicate BothMoved(next: Markers)
      reads `markers, `pending, `settled
    {
      && Moved(markers.channels, next.channels, pending, settled)
      && Moved(markers.threads, next.threads, pending, settled)
    }

    /** Marks of pending channels are held; the others move their markers, and every one of them is covered. */
    method AdvanceMarkers(all: seq<Mark>) returns (next: Markers, kept: seq<Mark>)
      requires forall m :: m in all ==> m.post in settled
      ensures BothMoved(next)
      ensures next.unresolved == markers.unresolved
      ensures forall m :: m in kept <==> m in all && m.post.channel in pending
      ensures forall m :: m in all && m.post.channel !in pending ==> Covers(next, m)
    {
      hide Moved;
      next, kept := markers, [];
      Unmoved();
      for i := 0 to |all|
        invariant BothMoved(next)
        invariant next.unresolved == markers.unresolved
        invariant forall m :: m in kept <==> m in all[..i] && m.post.channel in pending
        invariant forall m :: m in all[..i] && m.post.channel !in pending ==> Covers(next, m)
      {
        assert all[..i + 1] == all[..i] + [all[i]];
        var mark := all[i];
        if mark.post.channel in pending {
          kept := kept + [mark];
        } else {
          MovesOn(markers.channels, next.channels, pending, settled, mark.post);
          MovesOn(markers.threads, next.threads, pending, settled, mark.post);
          next := Bump(next, mark);
        }
      }
      assert all[..|all|] == all;
    }

    lemma Unmoved()
      ensures BothMoved(markers)
      ensures MovedOn(markers.threads, markers.threads, pending, settled)
    {
    }

    /** With nothing queued and everything returned acked, every message handed on is settled. */
    lemma EverythingSettled()
      requires Valid() && queue == [] && forall p :: p in inflight ==> p in settled
      ensures handed <= settled
    {
    }

    /** Then what is owed is unread, and after a listing its channel is pending. */
    lemma OwedUnread()
      requires Valid() && handed <= settled
      ensures forall p :: Owes(p) ==> p !in handed && (listed ==> p.channel in pending) && Reaches(markers, watched, p)
    {
      hide NotPassed, Reaches;
    }

    /** A mark waits to be applied: it was held back, or its message was acked, or dropped as no mail. */
    ghost predicate Awaits(m: Mark)
      reads `held, `staged, `marks, `droppedMarks
    {
      m in held || m in droppedMarks || exists p :: p in staged && p in marks && marks[p] == m
    }

    lemma AwaitedMarks()
      ensures forall m :: m in held + MarksOf(staged) + droppedMarks <==> Awaits(m)
    {
      MarksAre(staged);
    }

    lemma {:induction false} MarksAre(posts: seq<Post>)
      ensures forall m :: m in MarksOf(posts) <==> exists p :: p in posts && p in marks && marks[p] == m
      decreases |posts|
    {
      if posts != [] {
        var rest, last := posts[..|posts| - 1], posts[|posts| - 1];
        MarksAre(rest);
        assert posts == rest + [last];
        forall m ensures m in MarksOf(posts) <==> exists p :: p in posts && p in marks && marks[p] == m {
          if m in MarksOf(rest) {
            var p :| p in rest && p in marks && marks[p] == m;
            assert p in posts;
          } else if last in marks && marks[last] == m {
            assert last in posts;
          }
        }
      }
    }

    lemma StagedMarks(acked: seq<Post>)
      requires Valid() && acked == staged
      ensures forall m :: m in held + MarksOf(acked) + droppedMarks ==> m.post in settled
    {
    }

    /**
     The whole effect on the markers of a confirm that gets through. What is owed is given up where the
     cap took its thread's marker, and, by a process that has never listed what it catches up, where the
     markers move past it.
     */
    method WriteMarkers(next: Markers, ghost lost: set<nat>)
      requires Valid() && handed <= settled && next.unresolved == markers.unresolved
      requires Moved(markers.channels, next.channels, pending, settled)
      requires MovedOn(markers.threads, next.threads, pending, settled)
      requires forall c :: c in markers.threads && c !in lost ==> c in next.threads
      modifies `markers, `saved, `excused, `events, `unsaved
      ensures Valid() && markers == saved == next && unsaved == {} && Kept(old(excused), excused)
      ensures events == old(events) + [Cap(lost)] + if listed then [] else [Unlisted(watched, next)]
      ensures forall p :: old(Owes(p)) ==>
                (p in excused <==> p.channel in lost || (!listed && !Reaches(next, watched, p)))
    {
      hide Valid, Moved, MovedOn, Reaches, NotPassed, Kept, Owes;
      GiveUpPassed(next, lost);
      SetMarkers(next);
      Persist();
    }

    ghost method GiveUpPassed(next: Markers, lost: set<nat>)
      requires Valid() && handed <= settled && next.unresolved == markers.unresolved
      requires Moved(markers.channels, next.channels, pending, settled)
      requires MovedOn(markers.threads, next.threads, pending, settled)
      requires forall c :: c in markers.threads && c !in lost ==> c in next.threads
      modifies `excused, `events
      ensures Valid() && Kept(old(excused), excused) && forall c :: c in next.unresolved ==> c !in watched
      ensures events == old(events) + [Cap(lost)] + if listed then [] else [Unlisted(watched, next)]
      ensures forall p :: Owes(p) ==> Reaches(next, watched, p) && NotPassed(next, watched, p)
      ensures forall p :: old(Owes(p)) ==>
                (p in excused <==> p.channel in lost || (!listed && !Reaches(next, watched, p)))
    {
      OwedIsDue();
      OwedUnread();
      Apart();
      hide Valid, Moved, MovedOn, Reaches, NotPassed, Kept, Owes;
      Happens(Cap(lost));
      StillReached(next, lost);
      if !listed {
        ghost var capped := excused;
        Happens(Unlisted(watched, next));
        KeptOn(old(excused), capped, excused);
      }
      ReachedNotPassed(next);
      OwesIff();
    }

    lemma OwedIsDue()
      ensures forall p :: Owes(p) ==> p in due && p !in settled
    {
    }

    lemma OwesIff()
      ensures forall p :: p in due && p !in settled ==> (Owes(p) <==> p !in excused)
    {
    }

    lemma Apart()
      requires Valid()
      ensures FloorsApart()
    {
    }

    lemma ReachedNotPassed(next: Markers)
      requires forall p :: Owes(p) ==> Reaches(next, watched, p)
      ensures forall p :: Owes(p) ==> NotPassed(next, watched, p)
    {
    }

    lemma StillReached(next: Markers, lost: set<nat>)
      requires FloorsApart() && next.unresolved == markers.unresolved
      requires Moved(markers.channels, next.channels, pending, settled)
      requires MovedOn(markers.threads, next.threads, pending, settled)
      requires forall c :: c in markers.threads && c !in lost ==> c in next.threads
      requires forall p :: Owes(p) ==> p.channel !in lost && Reaches(markers, watched, p)
      ensures forall p :: Owes(p) && p.channel in pending ==> Reaches(next, watched, p)
      ensures forall c :: c in next.unresolved ==> c !in watched
    {
      hide Moved, MovedOn, Reaches, NotPassed;
      forall p | Owes(p) && p.channel in pending ensures Reaches(next, watched, p) {
        StillReaches(next, p);
      }
    }

    /** In a pending channel nothing has moved. */
    lemma StillReaches(next: Markers, p: Post)
      requires Reaches(markers, watched, p) && p.channel in pending && next.unresolved == markers.unresolved
      requires Moved(markers.channels, next.channels, pending, settled)
      requires MovedOn(markers.threads, next.threads, pending, settled)
      requires p.channel in markers.threads ==> p.channel in next.threads
      ensures Reaches(next, watched, p)
    {
    }

    method ClearMarks(kept: seq<Mark>)
      requires Valid() && forall m :: m in kept ==> m.post in settled
      modifies `held, `marks, `droppedMarks, `staged
      ensures Valid() && held == kept && marks == map[] && droppedMarks == [] && staged == []
    {
      hide ExcusesReal, NothingPassed, NothingUnreachable, CaughtUp, ResumesBelow, RunsUnderWay, FloorsApart, AllPosted;
      hide NothingDropped;
      held, marks, droppedMarks, staged := kept, map[], [], [];
    }

    method ClearInflight()
      requires Valid() && handed <= settled
      modifies `inflight
      ensures Valid() && inflight == []
    {
      hide ExcusesReal, NothingPassed, NothingUnreachable, CaughtUp, ResumesBelow, RunsUnderWay, FloorsApart, AllPosted;
      hide MarksReal;
      inflight := [];
    }

    /** The markers after this cycle, and the marks held back. */
    method NextMarkers() returns (next: Markers, kept: seq<Mark>, ghost lost: set<nat>)
      requires Valid()
      ensures Moved(markers.channels, next.channels, pending, settled)
      ensures MovedOn(markers.threads, next.threads, pending, settled)
      ensures forall c :: c in markers.threads && c !in lost ==> c in next.threads
      ensures next.unresolved == markers.unresolved
      ensures |next.threads.Keys| <= MAX_THREADS && (lost != {} ==> |next.threads.Keys| == MAX_THREADS)
      ensures forall m :: m in kept ==> m.post in settled && m.post.channel in pending
      ensures forall m :: m in kept <==> Awaits(m) && m.post.channel in pending
      ensures forall m :: Awaits(m) && m.post.channel !in pending ==>
                Covers(next, m) || (m.thread && m.post.channel in lost && m.post.channel !in next.threads)
    {
      var acked := staged;
      StagedMarks(acked);
      AwaitedMarks();
      hide Valid, Moved, MovedOn, NewestKept, Covers, Awaits;
      next, kept := AdvanceMarkers(held + MarksOf(acked) + droppedMarks);
      ghost var advanced := next;
      var threads;
      threads, lost := CapThreads(next.threads);
      CapMovesNone(markers.threads, next.threads, threads, lost, pending, settled);
      next := next.(threads := threads);
      forall m | Covers(advanced, m)
        ensures Covers(next, m) || (m.thread && m.post.channel in lost && m.post.channel !in next.threads)
      {
        CappedCovers(advanced, threads, lost, m);
      }
    }

    lemma CappedCovers(advanced: Markers, threads: map<nat, nat>, lost: set<nat>, m: Mark)
      requires Covers(advanced, m) && NewestKept(advanced.threads, threads, lost)
      ensures Covers(advanced.(threads := threads), m)
              || (m.thread && m.post.channel in lost && m.post.channel !in threads)
    {
    }

    /** The new markers are written, and the cycle is done; or the write fails, with the markers moved in memory. */
    method Write(next: Markers, ghost lost: set<nat>, kept: seq<Mark>) returns (died: bool)
      requires Valid() && handed <= settled
      requires Moved(markers.channels, next.channels, pending, settled)
      requires MovedOn(markers.threads, next.threads, pending, settled)
      requires forall c :: c in markers.threads && c !in lost ==> c in next.threads
      requires next.unresolved == markers.unresolved
      requires forall m :: m in kept ==> m.post in settled
      modifies `markers, `saved, `excused, `events, `held, `marks, `droppedMarks, `staged, `inflight, `unsaved
      ensures markers == next && Continues(old(Past()), Past())
      ensures Resumable() && if died then saved == old(saved) else Valid() && saved == next && inflight == []
      ensures quiet ==> !died
      ensures !died ==> held == kept && marks == map[] && droppedMarks == [] && staged == []
    {
      hide Valid, Moved, MovedOn, Reaches, Continues, Resumable, Owes;
      var fails: bool := *;
      if fails && !quiet {
        MoveInMemory(next, kept);
        Unchanged();
        return true;
      }
      WriteMarkers(next, lost);
      OnlyExcused(old(Past()));
      ClearMarks(kept);
      ClearInflight();
      ValidIsResumable();
      return false;
    }

    method MoveInMemory(next: Markers, kept: seq<Mark>)
      requires Valid()
      modifies `markers, `held
      ensures Resumable() && markers == next
    {
      ValidIsResumable();
      hide Valid, Owes, Reaches, NotPassed, Justified;
      markers, held := next, kept;
    }

    /**
     The end of a cycle. A marker moves only in a channel that is not pending, only forward, only to
     a settled message, and only when everything this process has handed on is settled. Floors stay,
     and a thread loses its marker only to the cap. When the write fails the markers have moved in
     memory only, and nobody catches the error: the process ends.
     */
    method Confirm() returns (died: bool)
      requires Valid() && queue == [] && forall p :: p in inflight ==> p in settled
      modifies `markers, `saved, `excused, `events, `held, `marks, `droppedMarks, `staged, `inflight, `unsaved
      ensures Resumable() && (if died then saved == old(saved) else Valid() && saved == markers && inflight == [])
      ensures due == old(due) && settled == old(settled) && pending == old(pending) && handed == old(handed)
      ensures Continues(old(Past()), Past()) && handed <= settled
      ensures Moved(old(markers).channels, markers.channels, pending, settled)
      ensures MovedOn(old(markers).threads, markers.threads, pending, settled)
      ensures markers.unresolved == old(markers).unresolved
      ensures old(markers).threads.Keys <= markers.threads.Keys || |markers.threads.Keys| == MAX_THREADS
      ensures forall m :: old(Awaits(m)) && m.post.channel !in pending ==>
                Covers(markers, m)
                || (m.thread && m.post.channel !in markers.threads && |markers.threads.Keys| == MAX_THREADS)
      ensures !died ==> forall m :: m in held <==> old(Awaits(m)) && m.post.channel in pending
      ensures quiet ==> !died
      ensures !died ==> marks == map[] && droppedMarks == [] && staged == []
    {
      EverythingSettled();
      hide Valid, Resumable, Moved, MovedOn, Owes, Continues, Covers, Awaits;
      var next, kept, lost := NextMarkers();
      died := Write(next, lost, kept);
    }

    /** Fetch, the poller's acks as far as it gets, and confirm when it got through. */
    method Cycle() returns (died: bool)
      requires Valid()
      modifies this
      ensures Resumable() && (!died ==> Valid()) && Continues(old(Past()), Past())
      ensures !old(open) ==> |dials| == |old(dials)| + 1
      ensures !old(open) && Dialled() ==> listed
      ensures old(open) || Dialled() ==> CaughtUpSince(watched, old(Now()), Now(), old(Wanted(!open)))
      ensures quiet ==> !died && saved == markers && queue == [] && inflight == [] && handed <= settled
    {
      hide Valid, Resumable, CaughtUpSince, Onward, Continues;
      died := false;
      var ok, items := Fetch();
      ValidIsResumable();
      if !ok { return; }
      ghost var before, mid := Past(), Now();
      died := Handle(items);
      ContinuesOn(old(Past()), before, Past());
      if old(open) || Dialled() { CaughtUpLater(watched, old(Now()), mid, Now(), old(Wanted(!open))); }
    }

    /** The poller acks one after the other; it may stop anywhere. */
    method Handle(items: seq<Post>) returns (died: bool)
      requires Valid() && queue == [] && items == inflight
      modifies `staged, `settled
      modifies `markers, `saved, `excused, `events, `held, `marks, `droppedMarks, `inflight, `unsaved
      ensures Resumable() && (!died ==> Valid()) && Continues(old(Past()), Past()) && Onward(old(Now()), Now())
      ensures quiet ==> !died && saved == markers && queue == [] && inflight == [] && handed <= settled
      ensures died ==> forall p :: p in items ==> p in settled
    {
      hide Valid, Resumable;
      for i := 0 to |items|
        invariant Valid() && queue == [] && inflight == items && Continues(old(Past()), Past())
        invariant forall j :: 0 <= j < i ==> items[j] in settled
        modifies `staged, `settled
      {
        var stops: bool := *;
        if stops && !quiet {
          ValidIsResumable();
          return false;
        }
        Ack(items[i]);
      }
      died := Confirm();
    }

    /**
     At every point of every run of a process: a message read about that is not settled is on its way to
     the poller, or its channel is pending, or the process has never listed what it catches up. One not
     handed on yet lies in an allowlisted channel or above a stored place, in memory, and on disk unless
     the write of its floor failed. No marker or floor has passed it, unless one had when it came. Or it
     was given up for something that happened after it was last read about. What a restart does to it is
     for Resume and RestartReaches to say.
     */
    lemma NothingSkipped(p: Post)
      requires Valid() && p in due && p !in settled
      ensures p !in excused ==> (p in queue || p in inflight || p.channel in pending || !listed)
      ensures p !in excused && p !in queue && p !in inflight ==>
                Reaches(markers, watched, p) && (Reaches(saved, watched, p) || p.channel in unsaved)
      ensures p !in excused && p !in late ==>
                NotPassed(markers, watched, p) && (NotPassed(saved, watched, p) || p.channel in unsaved)
      ensures p in excused ==> due[p] <= excused[p] < |events| && Excuses(events[excused[p]], p)
    {
      hide NotPassed, Reaches, Excuses;
      assert p !in excused ==> Owes(p);
    }

    /**
     What a new process goes on owing, by what the old one's disk shows: a message no place had passed
     when it came, and whose floor was written, is reached by the next process if and only if a place
     is stored for its channel, or the channel is in the allowlist and the message lies after the start
     of a first-run window.
     */
    lemma RestartReaches(p: Post, start: nat)
      requires Resumable() && Owes(p) && p !in late && p.channel !in unsaved
      ensures Reached(saved, watched, start, p)
              <==> Place(saved, watched, p.channel).Some? || (p.channel in watched && start < p.id)
      ensures p !in handed ==> (Reached(saved, watched, start, p) <==> p.channel in watched ==>
                p.channel in saved.channels || start < p.id)
    {
    }
  }

  lemma KeptOn(a: map<Post, nat>, b: map<Post, nat>, c: map<Post, nat>)
    requires Kept(a, b) && Kept(b, c)
    ensures Kept(a, c)
  {
  }

  /** Any number of cycles and restarts; a process that died in a confirm is always followed by another. */
  method Lifetime(start: Discord, cycles: nat) returns (d: Discord)
    requires start.Valid()
    modifies start
    ensures d.Valid() && (d == start || fresh(d)) && Continues(old(start.Past()), d.Past())
  {
    d := start;
    for c := 0 to cycles
      invariant d.Valid() && (d == start || fresh(d)) && Continues(old(start.Past()), d.Past())
    {
      ghost var before := d.Past();
      var died := d.Cycle();
      ContinuesOn(old(start.Past()), before, d.Past());
      var killed: bool := *;
      if died || killed {
        before := d.Past();
        var later: nat :| true;
        d := new Discord.Resume(d, later);
        ContinuesOn(old(start.Past()), before, d.Past());
      }
    }
  }

  // ---- four ways to lose a message that was read or is owed ----

  const NOTHING := Markers(map[], map[], map[])

  /** Nothing is queued, marked or read: as a process begins. */
  ghost predicate Idle(d: Discord)
    reads d
  {
    && d.markers == d.saved == NOTHING && d.queue == [] && d.inflight == [] && d.seen == {} && d.staged == []
    && d.marks == map[] && d.droppedMarks == [] && d.held == [] && d.resumeAfter == map[] && d.handed == {}
    && d.watched == {0}
  }

  /** One message is queued and marked, and nothing else. */
  ghost predicate Holds(d: Discord, p: Post, thread: bool)
    reads d
  {
    && d.markers == d.saved == NOTHING && d.queue == [p] && d.inflight == [] && d.staged == []
    && d.marks == map[p := Mark(p, thread)] && d.droppedMarks == [] && d.held == [] && d.handed == {p}
    && d.watched == {0}
  }

  /** Everything is listed, and the run of pages begins at the start of the window. */
  method BeginsRun(d: Discord)
    requires d.Valid() && Idle(d) && d.pending == {} && forall q :: !d.Owes(q)
    modifies d
    ensures d.Valid() && Idle(d) && d.pending == {0} && d.listed && d.posted == old(d.posted)
    ensures d.windowStart == old(d.windowStart) && d.settled == old(d.settled) && d.due == old(d.due)
    ensures d.excused == old(d.excused) && forall q :: !d.Owes(q)
  {
    hide Discord.Valid, NotPassed, Reaches, Continues;
    d.List({0}, true);
    d.Enter({0});
    d.Begin(0, false);
    assert d.excused == old(d.excused);
  }

  /** A message is queued, from a history or live. */
  method TakesOne(d: Discord, p: Post, thread: bool)
    requires d.Valid() && Idle(d) && p in d.posted
    modifies d
    ensures d.Valid() && Holds(d, p, thread) && d.pending == old(d.pending) && d.posted == old(d.posted)
    ensures d.windowStart == old(d.windowStart) && d.resumeAfter == map[] && d.settled == old(d.settled)
    ensures d.due.Keys == old(d.due).Keys + {p} && d.excused == old(d.excused) - {p} && d.listed == old(d.listed)
    ensures forall q :: q != p ==> (d.Owes(q) <==> old(d.Owes(q)))
  {
    hide Discord.Valid, NotPassed, Reaches, Continues;
    d.Ingest(p, true, Mark(p, thread));
  }

  lemma OneHanded(d: Discord, p: Post, thread: bool)
    requires Holds(d, p, thread) && forall q :: d.Owes(q) ==> q == p
    ensures d.UnreadAbove(0, p.id) && d.AllHandedIn(0)
  {
  }

  lemma OneListed(d: Discord, p: Post, after: nat)
    requires forall q :: q in d.posted && q.channel == 0 && q.id > after ==> q == p
    ensures d.Listed(0, after) <= {p}
  {
  }

  /** The only message of its channel in the window is read: one page, and the run is done. */
  method ReadsOne(d: Discord, p: Post)
    requires d.Valid() && Idle(d) && p in d.posted && p.channel == 0 && p.id > d.windowStart && d.pending == {}
    requires forall q :: q in d.posted && q.channel == 0 && q.id > d.windowStart ==> q == p
    requires forall q :: !d.Owes(q)
    modifies d
    ensures d.Valid() && Holds(d, p, false) && d.pending == {} && d.posted == old(d.posted)
    ensures d.settled == old(d.settled) && d.due.Keys == old(d.due).Keys + {p}
    ensures d.excused == old(d.excused) - {p}
  {
    hide Discord.Valid, Discord.Ahead, NotPassed, Reaches, Continues, Discord.Owes, Discord.Listed;
    BeginsRun(d);
    TakesOne(d, p, false);
    assert forall q :: d.Owes(q) ==> q == p;
    FinishesOne(d, p);
  }

  method FinishesOne(d: Discord, p: Post)
    requires d.Valid() && Holds(d, p, false) && d.pending == {0} && p.channel == 0 && p.id > d.windowStart
    requires forall q :: q in d.posted && q.channel == 0 && q.id > d.windowStart ==> q == p
    requires p in d.due && p !in d.excused && forall q :: d.Owes(q) ==> q == p
    modifies d`resumeAfter, d`pending, d`due, d`excused
    ensures d.Valid() && d.pending == {} && d.due.Keys == old(d.due).Keys && d.excused == old(d.excused)
  {
    hide Discord.Valid, Discord.Ahead, NotPassed, Reaches, Continues, Discord.Listed;
    OneHanded(d, p, false);
    OneListed(d, p, d.windowStart);
    d.StandAt(0, p.id);
    d.NoteAnswer(0, d.windowStart);
    assert forall q :: d.Owes(q) ==> q == p;
    OneHanded(d, p, false);
    d.Finish(0);
  }

  lemma OneMark(d: Discord, p: Post, thread: bool)
    requires d.marks == map[p := Mark(p, thread)]
    ensures d.MarksOf([p]) == [Mark(p, thread)]
  {
  }

  /** With one message settled and no marker before, at most its own channel has one after. */
  lemma OneMoved(after: map<nat, nat>, pending: set<nat>, p: Post)
    requires Moved(map[], after, pending, {p})
    ensures after.Keys <= {p.channel} && |after.Keys| <= 1
  {
    assert forall c :: c in after ==> Post(c, after[c]) in {p};
    if after.Keys != {} {
      assert after.Keys == {p.channel};
    }
  }

  lemma FewKept(threads: map<nat, nat>, kept: map<nat, nat>, lost: set<nat>)
    requires NewestKept(threads, kept, lost) && |threads.Keys| <= 1 && (lost != {} ==> |kept.Keys| == MAX_THREADS)
    ensures lost == {} && kept == threads
  {
    assert kept.Keys <= threads.Keys;
    Fewer(kept.Keys, threads.Keys);
  }

  lemma Fewer(a: set<nat>, b: set<nat>)
    requires a <= b
    ensures |a| <= |b|
  {
    assert b == a + (b - a);
  }

  /** The markers that a confirm computes from this one mark. */
  method MarkersOfOne(d: Discord, p: Post, thread: bool) returns (next: Markers, kept: seq<Mark>)
    requires d.markers == NOTHING && d.settled == {p} && p.channel !in d.pending
    ensures Moved(d.markers.channels, next.channels, d.pending, d.settled)
    ensures Moved(d.markers.threads, next.threads, d.pending, d.settled)
    ensures next.unresolved == map[] && kept == [] && Covers(next, Mark(p, thread))
  {
    hide Moved, Covers;
    next, kept := d.AdvanceMarkers([Mark(p, thread)]);
    FirstIn(kept);
    ghost var advanced := next;
    var threads;
    ghost var lost;
    threads, lost := CapThreads(next.threads);
    OneMoved(next.threads, d.pending, p);
    FewKept(next.threads, threads, lost);
    next := next.(threads := threads);
    assert next == advanced;
  }

  lemma FirstIn(s: seq<Mark>)
    ensures s != [] ==> s[0] in s
  {
  }

  /** The queued message is returned and acked. */
  method IsAcked(d: Discord, p: Post, thread: bool)
    requires d.Valid() && Holds(d, p, thread) && d.settled == {}
    modifies d`queue, d`inflight, d`staged, d`settled
    ensures d.Valid() && d.queue == [] && d.inflight == [p] && d.staged == [p] && d.settled == {p}
    ensures forall q :: q != p ==> (d.Owes(q) <==> old(d.Owes(q)))
  {
    HoldsParts(d, p, thread);
    hide Discord.Valid, Holds;
    var items := d.TakeQueue();
    d.Ack(p);
  }

  /** And the cycle confirms: its marker goes to disk. */
  method AckedAndConfirmed(d: Discord, p: Post, thread: bool)
    requires d.Valid() && Holds(d, p, thread) && d.settled == {} && p.channel !in d.pending
    requires if thread then p.channel != 0 else p.channel == 0
    modifies d
    ensures d.Valid() && d.due.Keys == old(d.due).Keys && d.settled == {p} && d.watched == {0}
    ensures Place(d.saved, {0}, p.channel).Some? && Place(d.saved, {0}, p.channel).value >= p.id
    ensures Kept(old(d.excused), d.excused)
  {
    HoldsParts(d, p, thread);
    hide *;
    IsAcked(d, p, thread);
    var next, kept := MarkersOfOne(d, p, thread);
    PlaceOfMark(next, p, thread);
    ConfirmsOne(d, p, next);
  }

  method ConfirmsOne(d: Discord, p: Post, next: Markers)
    requires d.Valid() && d.queue == [] && d.inflight == [p] && d.settled == {p}
    requires Moved(d.markers.channels, next.channels, d.pending, d.settled)
    requires Moved(d.markers.threads, next.threads, d.pending, d.settled)
    requires next.unresolved == d.markers.unresolved
    modifies d`markers, d`saved, d`excused, d`events, d`held, d`marks, d`droppedMarks, d`staged, d`inflight, d`unsaved
    ensures d.Valid() && d.saved == next && Kept(old(d.excused), d.excused)
    ensures forall q :: old(d.Owes(q)) ==> (q in d.excused <==> !d.listed && !Reaches(next, d.watched, q))
  {
    hide *;
    WritesOne(d, p, next);
    d.ClearMarks([]);
    d.ClearInflight();
  }

  method WritesOne(d: Discord, p: Post, next: Markers)
    requires d.Valid() && d.queue == [] && d.inflight == [p] && d.settled == {p}
    requires Moved(d.markers.channels, next.channels, d.pending, d.settled)
    requires Moved(d.markers.threads, next.threads, d.pending, d.settled)
    requires next.unresolved == d.markers.unresolved
    modifies d`markers, d`saved, d`excused, d`events, d`unsaved
    ensures d.Valid() && d.saved == next && Kept(old(d.excused), d.excused) && d.handed <= d.settled
    ensures forall q :: old(d.Owes(q)) ==> (q in d.excused <==> !d.listed && !Reaches(next, d.watched, q))
  {
    d.EverythingSettled();
    MovedIsOn(d.markers.threads, next.threads, d.pending, d.settled);
    hide *;
    d.WriteMarkers(next, {});
  }

  lemma HoldsParts(d: Discord, p: Post, thread: bool)
    requires Holds(d, p, thread)
    ensures d.markers == NOTHING && d.markers.unresolved == map[] && d.watched == {0}
    ensures d.queue == [p] && d.inflight == [] && d.staged == []
    ensures d.held + d.MarksOf([p]) + d.droppedMarks == [Mark(p, thread)]
  {
    OneMark(d, p, thread);
  }

  lemma PlaceOfMark(next: Markers, p: Post, thread: bool)
    requires Covers(next, Mark(p, thread)) && if thread then p.channel != 0 else p.channel == 0
    ensures Place(next, {0}, p.channel).Some? && Place(next, {0}, p.channel).value >= p.id
  {
  }

  lemma MovedIsOn(before: map<nat, nat>, after: map<nat, nat>, pending: set<nat>, settled: set<Post>)
    requires Moved(before, after, pending, settled)
    ensures MovedOn(before, after, pending, settled) && before.Keys <= after.Keys
  {
  }

  lemma NoneOwed(d: Discord)
    requires d.due == map[]
    ensures forall q :: !d.Owes(q)
  {
  }

  lemma OnlyOwed(d: Discord, p: Post)
    requires d.due.Keys == {p} && d.settled == {} && d.excused == map[]
    ensures forall q :: d.Owes(q) <==> q == p
  {
  }

  /** The only message the dead process owed is not reached by the next. */
  lemma GivenUp(d: Discord, dead: Discord, p: Post)
    requires d.due == dead.due && d.settled == dead.settled && Kept(dead.excused, d.excused)
    requires (forall q :: dead.Owes(q) <==> q == p) && !d.Owes(p)
    ensures p in d.excused && forall q :: !d.Owes(q)
  {
    assert dead.Owes(p);
    forall q ensures !d.Owes(q) {
      assert dead.Owes(q) <==> q == p;
    }
  }

  /** A new process with nothing on disk, whose predecessor owed one message that is not reached. */
  method NextProcess(dead: Discord, p: Post, windowStart: nat) returns (d: Discord)
    requires dead.Resumable() && dead.watched == {0} && dead.saved == NOTHING && dead.settled == {}
    requires p.channel == 0 ==> p.id <= windowStart
    requires dead.due.Keys == {p} && forall q :: dead.Owes(q) <==> q == p
    ensures fresh(d) && d.Valid() && Idle(d) && d.pending == {} && d.posted == dead.posted && !d.listed
    ensures d.windowStart == windowStart && d.settled == {} && d.due.Keys == {p} && p in d.excused
    ensures forall q :: !d.Owes(q)
  {
    hide Discord.Valid, Discord.Resumable, Discord.Owes, Continues, Kept;
    d := new Discord.Resume(dead, windowStart);
    assert !Reached(dead.saved, {0}, windowStart, p);
    GivenUp(d, dead, p);
  }

  /** A message of the allowlisted channel is read and queued, and then the process dies. */
  method DiesAfterReading(p: Post) returns (dead: Discord)
    requires p.channel == 0 && p.id > 0
    ensures fresh(dead) && dead.Resumable() && dead.watched == {0} && dead.saved == NOTHING && dead.posted == [p]
    ensures dead.settled == {} && dead.due.Keys == {p} && forall q :: dead.Owes(q) <==> q == p
  {
    hide Discord.Valid, Discord.Resumable, Discord.Owes, Discord.Ahead, NotPassed, Reaches, Continues, Kept;
    dead := new Discord({0}, 0, NOTHING, [], false);
    NoneOwed(dead);
    dead.Pass([p], 0);
    NoneOwed(dead);
    ReadsOne(dead, p);
    dead.ValidIsResumable();
    OnlyOwed(dead, p);
  }

  /**
   A first-run window that moves on. A process reads and queues a message of an allowlisted channel
   without a marker, and dies before it is acked. The next one's window begins later; a later message is
   read, acked and confirmed, and the marker on disk passes the first, which has no letter.
   */
  method FirstWindowMovesOn() returns (d: Discord, p: Post)
    ensures fresh(d) && d.Valid() && p in d.due && p !in d.settled && p in d.excused
    ensures p.channel in d.watched && p.channel in d.saved.channels && p.id < d.saved.channels[p.channel]
  {
    hide Discord.Valid, Discord.Resumable, Discord.Owes, Discord.Ahead, NotPassed, Reaches, Continues;
    p := Post(0, 5);
    var q := Post(0, 20);
    var dead := DiesAfterReading(p);
    d := NextProcess(dead, p, 10);
    d.Pass([q], 10);
    ReadsOne(d, q);
    AckedAndConfirmed(d, q, false);
  }

  /** A live message of a thread: its record is found, and it is queued. */
  method TakesLive(d: Discord, p: Post)
    requires d.Valid() && Idle(d) && d.listed && p.channel != 0 && forall q :: !d.Owes(q)
    modifies d
    ensures d.Valid() && Holds(d, p, true) && d.pending == old(d.pending) && d.settled == old(d.settled)
    ensures d.due.Keys == old(d.due).Keys + {p} && d.excused == old(d.excused) - {p} && p in d.posted
    ensures forall q :: d.Owes(q) ==> q == p
  {
    hide Discord.Valid, Discord.Owes, Discord.Ahead, NotPassed, Reaches, Continues;
    d.Arrive(p);
    d.NoteRecord(p.channel, ThreadOf(0));
    TakesOne(d, p, true);
    assert forall q :: d.Owes(q) ==> q == p;
  }

  /** A process lists its channels, and a live message of a thread without a marker or floor is queued. */
  method DiesAfterTakingLive(p: Post) returns (dead: Discord)
    requires p.channel != 0
    ensures fresh(dead) && dead.Resumable() && dead.watched == {0} && dead.saved == NOTHING
    ensures dead.settled == {} && dead.due.Keys == {p} && forall q :: dead.Owes(q) <==> q == p
  {
    hide Discord.Valid, Discord.Resumable, Discord.Owes, Discord.Ahead, NotPassed, Reaches, Continues;
    dead := new Discord({0}, 0, NOTHING, [], false);
    NoneOwed(dead);
    dead.List({0}, true);
    NoneOwed(dead);
    TakesLive(dead, p);
    dead.ValidIsResumable();
    OnlyOwed(dead, p);
  }

  /** A live message of a thread whose record cannot be looked up; the write of its floor fails. */
  method DiesWithoutItsFloor(p: Post) returns (dead: Discord)
    requires p.channel != 0 && p.id > 0
    ensures fresh(dead) && dead.Resumable() && dead.watched == {0} && dead.saved == NOTHING
    ensures dead.settled == {} && dead.due.Keys == {p} && forall q :: dead.Owes(q) <==> q == p
  {
    dead := Listens(p);
    hide Discord.Valid, Discord.Resumable, Discord.Owes, Discord.Ahead, Continues;
    FloorReaches(dead, p);
    hide Reaches, NotPassed, Discord.WithFloor;
    dead.PutFloor(p);
    dead.ValidIsResumable();
    OnlyOwed(dead, p);
  }

  /** A process lists its channels, and a live message arrives. */
  method Listens(p: Post) returns (d: Discord)
    ensures fresh(d) && d.Valid() && d.watched == {0} && d.saved == d.markers == NOTHING && d.resumeAfter == map[]
    ensures d.settled == {} && d.due == map[] && d.excused == map[] && p in d.posted
  {
    hide Discord.Valid, Discord.Owes, Reaches, NotPassed;
    d := new Discord({0}, 0, NOTHING, [], false);
    d.List({0}, true);
    d.Arrive(p);
  }

  lemma FloorReaches(d: Discord, p: Post)
    requires d.markers == NOTHING && d.watched == {0} && p.channel != 0 && p.id > 0
    ensures Reaches(d.WithFloor(p.channel, p.id - 1), {0}, p)
  {
  }

  /** The next process takes a later live message of the thread, and its marker goes to disk. */
  method LaterOneConfirms(dead: Discord, p: Post, q: Post) returns (d: Discord)
    requires dead.Resumable() && dead.watched == {0} && dead.saved == NOTHING && dead.settled == {}
    requires dead.due.Keys == {p} && (forall r :: dead.Owes(r) <==> r == p)
    requires p.channel == q.channel != 0 && p.id < q.id
    ensures fresh(d) && d.Valid() && p in d.due && p !in d.settled && p in d.excused && d.watched == {0}
    ensures Place(d.saved, {0}, p.channel).Some? && p.id < Place(d.saved, {0}, p.channel).value
  {
    hide Discord.Valid, Discord.Resumable, Discord.Owes, Discord.Ahead, NotPassed, Reaches, Continues;
    d := NextProcess(dead, p, 0);
    d.List({0}, true);
    TakesLive(d, q);
    AckedAndConfirmed(d, q, true);
  }

  /**
   Live mail of a thread: the process that queued it dies before it is acked, and the next one does not
   know the thread. A later message there, acked and confirmed, gives the thread a marker past it.
   */
  method LiveMailIsPassed() returns (d: Discord, p: Post)
    ensures fresh(d) && d.Valid() && p in d.due && p !in d.settled && p in d.excused
    ensures p.channel !in d.watched && Place(d.saved, d.watched, p.channel).Some?
    ensures p.id < Place(d.saved, d.watched, p.channel).value
  {
    p := Post(7, 5);
    var dead := DiesAfterTakingLive(p);
    d := LaterOneConfirms(dead, p, Post(7, 9));
  }

  /** The same where the write of a floor fails: the floor is in memory only, and dies with the process. */
  method FloorIsLost() returns (d: Discord, p: Post)
    ensures fresh(d) && d.Valid() && p in d.due && p !in d.settled && p in d.excused
    ensures p.channel !in d.watched && Place(d.saved, d.watched, p.channel).Some?
    ensures p.id < Place(d.saved, d.watched, p.channel).value
  {
    p := Post(7, 5);
    var dead := DiesWithoutItsFloor(p);
    d := LaterOneConfirms(dead, p, Post(7, 9));
  }

  lemma OwedOne(d: Discord, p: Post)
    requires d.Owes(p)
    ensures p in d.due && p !in d.settled
  {
  }

  /** A new process owes what the dead one read, and has not listed anything. */
  method InheritsOne(p: Post) returns (d: Discord)
    requires p.channel == 0 && p.id > 0
    ensures fresh(d) && d.Valid() && Idle(d) && !d.listed && d.pending == {} && d.settled == {} && d.Owes(p)
  {
    hide Discord.Valid, Discord.Resumable, Discord.Owes, Continues, Kept;
    var dead := DiesAfterReading(p);
    assert dead.Owes(p);
    d := new Discord.Resume(dead, 0);
    assert Reached(dead.saved, {0}, 0, p);
  }

  /** Its first connect fails with the socket left open; a live message is taken and acked. */
  method TakesUnlisted(p: Post, q: Post) returns (d: Discord)
    requires p.channel == q.channel == 0 && 0 < p.id < q.id
    ensures fresh(d) && d.Valid() && !d.listed && d.watched == {0} && d.markers == NOTHING && d.pending == {}
    ensures d.queue == [] && d.inflight == [q] && d.settled == {q} && d.Owes(p)
  {
    d := InheritsOne(p);
    hide Discord.Valid, Discord.Owes, Continues, Holds;
    d.Arrive(q);
    TakesOne(d, q, false);
    HoldsParts(d, q, false);
    IsAcked(d, q, false);
  }

  /**
   A process that never lists. The one before left a message owed that is still reached. Now the first
   connect fails with its socket left open, so no later fetch is taken for a reconnect, and the histories
   are never read; a live message is acked and confirmed, and the marker passes the one that is owed.
   */
  method UnlistedIsPassed() returns (d: Discord, p: Post)
    ensures fresh(d) && d.Valid() && p in d.due && p !in d.settled && p in d.excused
    ensures Place(d.saved, {0}, p.channel).Some? && p.id < Place(d.saved, {0}, p.channel).value
  {
    p := Post(0, 5);
    var q := Post(0, 20);
    d := TakesUnlisted(p, q);
    OwedOne(d, p);
    hide Discord.Valid, Discord.Owes, Kept, Moved, Covers;
    var next, kept := MarkersOfOne(d, q, false);
    PlaceOfMark(next, q, false);
    ConfirmsOne(d, q, next);
  }
}
