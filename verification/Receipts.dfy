/**
 The receipts directory of one outbound letter, as concurrent processes see it.

 A receipt is a file named by a number and an event. Files are only ever added. A listing is
 not atomic: it holds everything that was there when it began and perhaps some of what was
 added meanwhile. A new receipt is numbered one past the length of a listing, and its
 exclusive create is a later, separate step.
 */
module Receipts {

  datatype Event = Composed | Sending | Throttled | Sent | Refused | Ambiguous | Dead

  predicate Terminal(e: Event) {
    e == Sent || e == Refused || e == Ambiguous || e == Dead
  }

  /** A directory entry. Stray stands for a file without a leading number. */
  datatype Name = Numbered(number: nat, event: Event) | Stray(tag: nat)

  type Dir = set<Name>

  predicate IsListing(lower: Dir, listing: Dir, upper: Dir) {
    lower <= listing <= upper
  }

  ghost predicate HasTerminal(d: Dir) {
    exists x :: x in d && x.Numbered? && Terminal(x.event)
  }

  ghost predicate HasEvent(d: Dir, e: Event) {
    exists n :: Numbered(n, e) in d
  }

  /** e may stand last in the history read from d: nothing in d carries a larger number. */
  ghost predicate Newest(d: Dir, e: Event) {
    exists n :: Numbered(n, e) in d && Tops(d, n)
  }

  ghost predicate Tops(d: Dir, n: nat) {
    forall x :: x in d && x.Numbered? ==> x.number <= n
  }

  /** No number exceeds the number of entries, so the next number is new. */
  ghost predicate Bounded(d: Dir) {
    forall x :: x in d && x.Numbered? ==> x.number <= |d|
  }

  lemma AddKeepsBounded(d: Dir, x: Name)
    requires Bounded(d)
    requires x !in d
    requires x.Numbered? ==> x.number <= |d| + 1
    ensures Bounded(d + {x}) && |d + {x}| == |d| + 1
  {
  }

  lemma SubsetSize<T>(a: set<T>, b: set<T>)
    requires a <= b
    ensures |a| <= |b|
  {
    assert b == a + (b - a);
  }

  /**
   What the sending processes themselves have recorded: their entries, and which is newest.
   They write one at a time, so the newest carries the largest number, and nobody writes
   after a terminal event.
   */
  datatype Trail = Trail(names: Dir, top: nat, newest: Event) {
    ghost predicate Valid() {
      && (forall x :: x in names ==>
            && x.Numbered? && x.number <= top
            && (x.number == top || Terminal(x.event) ==> x == Newest()))
      && (if names == {} then top == 0 else Newest() in names)
    }

    function Newest(): Name {
      Numbered(top, newest)
    }

    function Extend(number: nat, event: Event): Trail {
      Trail(names + {Numbered(number, event)}, number, event)
    }
  }

  const NoTrail := Trail({}, 0, Composed)

  /** Every receipt is on the trail, except the ones startup reconciliation wrote. */
  ghost predicate Accounts(t: Trail, files: Dir) {
    && t.Valid() && Bounded(files)
    && t.names <= files
    && (forall x :: x in files && x !in t.names && x.Numbered? ==> x.event == Dead)
  }

  lemma ExtendKeepsAccounts(t: Trail, files: Dir, n: nat, e: Event)
    requires Accounts(t, files) && Numbered(n, e) !in files
    requires t.top < n <= |files| + 1
    requires t.names != {} ==> !Terminal(t.newest)
    ensures Accounts(t.Extend(n, e), files + {Numbered(n, e)})
  {
    AddKeepsBounded(files, Numbered(n, e));
  }

  /** Files that are not on the trail may come at any time. */
  lemma OthersKeepAccounts(t: Trail, files: Dir, x: Name)
    requires Accounts(t, files) && x !in files
    requires x.Numbered? ==> x.number <= |files| + 1 && x.event == Dead
    ensures Accounts(t, files + {x}) && |files + {x}| == |files| + 1
  {
    AddKeepsBounded(files, x);
  }

  /** Why the number a listing yields is past everything on the trail. */
  lemma ListingNumber(t: Trail, lower: Dir, listing: Dir, files: Dir)
    requires Accounts(t, files) && t.top <= |lower| && IsListing(lower, listing, files)
    ensures t.top < |listing| + 1 <= |files| + 1
  {
    SubsetSize(listing, files);
    SubsetSize(lower, listing);
  }

  /** With no terminal receipt in sight, the newest entry of a listing is the newest of the trail. */
  lemma NewestIsLast(t: Trail, listing: Dir, files: Dir, e: Event)
    requires Accounts(t, files) && listing <= files
    requires t.names <= listing && !HasTerminal(listing)
    requires Newest(listing, e)
    ensures t.names != {} && t.newest == e && !Terminal(e)
  {
    var n :| Numbered(n, e) in listing && Tops(listing, n);
    assert Numbered(n, e) in t.names;
    assert t.Newest() in listing;
  }

  // ---- one letter's shelf: its receipts, and the reconciliations that may be acting on it ----

  /** record_event lists the directory for a number; its exclusive create comes later. */
  datatype Stage = Listing(lower: Dir) | Naming(number: nat)

  /** Startup reconciliation. It takes no lock, and may act on an old listing. */
  datatype Reconciler = Scanning(lower: Dir) | Flagging(stage: Stage)

  datatype Shelf = Shelf(files: Dir, trail: Trail, reconcilers: map<nat, Reconciler>)

  const EmptyShelf := Shelf({}, NoTrail, map[])

  datatype Background =
    | Scan(pid: nat)                        // a reconciliation begins to list
    | FindInFlight(pid: nat, listing: Dir)  // and decides the letter died in flight
    | CountDead(pid: nat, listing: Dir)
    | CreateDead(pid: nat)
    | Forget(pid: nat)                      // a crash, a name collision, or another verdict
    | Litter(tag: nat)                      // somebody drops an unnumbered file

  /** The verdicts of reconcile that anything acts on. */
  ghost predicate WaitsOnThrottle(listing: Dir) {
    !HasTerminal(listing) && Newest(listing, Throttled)
  }

  ghost predicate DiedInFlight(listing: Dir) {
    !HasTerminal(listing) && HasEvent(listing, Sending) && exists e :: e != Throttled && Newest(listing, e)
  }

  /** What reconcile calls unsent. */
  ghost predicate Unsent(listing: Dir) {
    !HasTerminal(listing) && !Newest(listing, Throttled) && !HasEvent(listing, Sending)
  }

  ghost predicate CanHappen(s: Shelf, b: Background) {
    match b
    case Scan(pid) => pid !in s.reconcilers
    case FindInFlight(pid, l) =>
      pid in s.reconcilers && s.reconcilers[pid].Scanning?
      && IsListing(s.reconcilers[pid].lower, l, s.files) && DiedInFlight(l)
    case CountDead(pid, l) =>
      pid in s.reconcilers && s.reconcilers[pid].Flagging? && s.reconcilers[pid].stage.Listing?
      && IsListing(s.reconcilers[pid].stage.lower, l, s.files)
    case CreateDead(pid) =>
      pid in s.reconcilers && s.reconcilers[pid].Flagging? && s.reconcilers[pid].stage.Naming?
      && Numbered(s.reconcilers[pid].stage.number, Dead) !in s.files
    case Forget(pid) => pid in s.reconcilers
    case Litter(tag) => Stray(tag) !in s.files
  }

  ghost function Happen(s: Shelf, b: Background): Shelf
    requires CanHappen(s, b)
  {
    match b
    case Scan(pid) => s.(reconcilers := s.reconcilers[pid := Scanning(s.files)])
    case FindInFlight(pid, _) => s.(reconcilers := s.reconcilers[pid := Flagging(Listing(s.files))])
    case CountDead(pid, l) => s.(reconcilers := s.reconcilers[pid := Flagging(Naming(|l| + 1))])
    case CreateDead(pid) =>
      s.(files := s.files + {Numbered(s.reconcilers[pid].stage.number, Dead)},
         reconcilers := s.reconcilers - {pid})
    case Forget(pid) => s.(reconcilers := s.reconcilers - {pid})
    case Litter(tag) => s.(files := s.files + {Stray(tag)})
  }

  /** The shelf after a sending process creates the receipt (n, e). */
  function Record(s: Shelf, n: nat, e: Event): Shelf {
    s.(files := s.files + {Numbered(n, e)}, trail := s.trail.Extend(n, e))
  }

  ghost predicate ShelfValid(s: Shelf) {
    && Accounts(s.trail, s.files)
    && (forall pid :: pid in s.reconcilers && s.reconcilers[pid].Flagging? && s.reconcilers[pid].stage.Naming? ==>
          s.reconcilers[pid].stage.number <= |s.files| + 1)
  }

  /** What a sending process may rely on while it numbers its next receipt. */
  ghost predicate StageFits(s: Shelf, stage: Stage) {
    match stage
    case Listing(lower) => s.trail.names <= lower <= s.files && s.trail.top <= |lower|
    case Naming(n) => s.trail.top < n <= |s.files| + 1
  }

  /** The trail stands still and files only appear. */
  ghost predicate Grows(s: Shelf, t: Shelf) {
    t.trail == s.trail && s.files <= t.files && |s.files| <= |t.files|
  }

  lemma BackgroundKeepsShelf(s: Shelf, b: Background)
    requires ShelfValid(s) && CanHappen(s, b)
    ensures ShelfValid(Happen(s, b)) && Grows(s, Happen(s, b))
  {
    match b
    case CountDead(pid, l) => SubsetSize(l, s.files);
    case CreateDead(pid) => OthersKeepAccounts(s.trail, s.files, Numbered(s.reconcilers[pid].stage.number, Dead));
    case Litter(tag) => OthersKeepAccounts(s.trail, s.files, Stray(tag));
    case _ =>
  }

  lemma RecordKeepsShelf(s: Shelf, n: nat, e: Event)
    requires ShelfValid(s) && StageFits(s, Naming(n)) && Numbered(n, e) !in s.files
    requires s.trail.names != {} ==> !Terminal(s.trail.newest)
    ensures ShelfValid(Record(s, n, e)) && s.files <= Record(s, n, e).files
    ensures Record(s, n, e).trail.names == s.trail.names + {Numbered(n, e)}
    ensures Record(s, n, e).trail.newest == e && Record(s, n, e).trail.top == n
    ensures StageFits(Record(s, n, e), Listing(Record(s, n, e).files))
  {
    ExtendKeepsAccounts(s.trail, s.files, n, e);
    AddKeepsBounded(s.files, Numbered(n, e));
  }

  lemma FreshListingFits(s: Shelf)
    requires ShelfValid(s)
    ensures StageFits(s, Listing(s.files))
  {
    assert s.trail.names != {} ==> s.trail.Newest() in s.files;
  }

  /** What happened between the platform and one attempt. Unknown may or may not have arrived. */
  datatype Answer = Accepted | Declined | Deferred | Unknown

  function OutcomeOf(a: Answer): Event {
    match a
    case Accepted => Sent
    case Declined => Refused
    case Deferred => Throttled
    case Unknown => Ambiguous
  }

  /** Whether the correspondent can have received this attempt. */
  predicate MayBeDelivered(a: Answer) {
    a == Accepted || a == Unknown
  }

  ghost predicate AllDeferred(attempts: seq<Answer>) {
    forall i :: 0 <= i < |attempts| ==> attempts[i] == Deferred
  }

  ghost predicate AllButLastDeferred(attempts: seq<Answer>) {
    forall i :: 0 <= i < |attempts| - 1 ==> attempts[i] == Deferred
  }

  /** Every attempt but the last was throttled, so at most one can have arrived. */
  ghost predicate AtMostOneDelivered(attempts: seq<Answer>) {
    && AllButLastDeferred(attempts)
    && (forall i, j | 0 <= i < |attempts| && 0 <= j < |attempts| ::
          MayBeDelivered(attempts[i]) && MayBeDelivered(attempts[j]) ==> i == j)
  }

  ghost predicate LastWas(attempts: seq<Answer>, a: Answer) {
    attempts != [] && attempts[|attempts| - 1] == a
  }

  /**
   "Sent" is said only of a last attempt that was accepted, "throttled" only if one was turned away for
   now, and no attempt is made before "sending" is said.
   */
  ghost predicate ReceiptsTell(d: Dir, attempts: seq<Answer>) {
    && (HasEvent(d, Sent) ==> LastWas(attempts, Accepted))
    && (HasEvent(d, Throttled) ==> exists i :: 0 <= i < |attempts| && attempts[i] == Deferred)
    && (attempts != [] ==> HasEvent(d, Sending))
  }

  lemma NewReceipt(d: Dir, n: nat, e: Event)
    ensures forall x :: HasEvent(d + {Numbered(n, e)}, x) <==> x == e || HasEvent(d, x)
  {
    assert Numbered(n, e) in d + {Numbered(n, e)};
    forall x | HasEvent(d, x) ensures HasEvent(d + {Numbered(n, e)}, x) {
      var m :| Numbered(m, x) in d;
      assert Numbered(m, x) in d + {Numbered(n, e)};
    }
  }

  /** While the newest entry of the trail is not terminal, the only terminal receipts are those of reconciliation. */
  lemma NoneTerminal(t: Trail, files: Dir)
    requires Accounts(t, files) && (t.names != {} ==> !Terminal(t.newest))
    ensures forall e :: Terminal(e) && HasEvent(files, e) ==> e == Dead
  {
    forall e | Terminal(e) && HasEvent(files, e) ensures e == Dead {
      var n :| Numbered(n, e) in files;
    }
  }

  /** The receipt that an answer calls for. */
  ghost predicate Means(e: Event, a: Answer) {
    match e
    case Sent => a == Accepted
    case Refused => a == Declined
    case Throttled => a == Deferred
    case Ambiguous => a == Unknown
    case _ => false
  }

  ghost predicate Adds(before: Dir, after: Dir, a: Answer) {
    exists n, e :: Means(e, a) && Numbered(n, e) !in before && after == before + {Numbered(n, e)}
  }

  lemma NextNumberIsNew(files: Dir, e: Event)
    requires Bounded(files)
    ensures Numbered(|files| + 1, e) !in files
  {
  }

  lemma AddsOne(files: Dir, e: Event, a: Answer)
    requires Means(e, a) && Numbered(|files| + 1, e) !in files
    ensures Adds(files, files + {Numbered(|files| + 1, e)}, a)
  {
  }
}
