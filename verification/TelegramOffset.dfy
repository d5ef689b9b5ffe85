/**
 The Telegram adapter's high-water mark: staged in memory by Ack, transmitted as the offset of
 a request, and written to disk only after the platform accepted it.
 */
module TelegramOffset {
  import opened Collections
  import opened LetterFormat
  import opened Inscription

  /** What the poller reads of an update: the letter's fields and body, and the thread it replies into. */
  datatype Update = Update(id: nat, correspondent: string, fields: seq<Field>, body: string, reply: Option<string>)

  predicate Wholesome(u: Update) {
    Proper(u.fields) && "thread" in ToMeta(u.fields) && (u.reply.Some? ==> Fits(u.reply.value) && u.reply.value != "")
  }

  predicate Ascending(updates: seq<Update>) {
    forall i, j :: 0 <= i < j < |updates| ==> updates[i].id < updates[j].id
  }

  /** A mark is the id of some update. */
  ghost predicate Known(issued: seq<Update>, mark: Option<nat>) {
    mark.Some? ==> exists i :: 0 <= i < |issued| && issued[i].id == mark.value
  }

  lemma KnownGrows(issued: seq<Update>, more: seq<Update>, mark: Option<nat>)
    requires Known(issued, mark)
    ensures Known(issued + more, mark)
  {
    if mark.Some? {
      var i :| 0 <= i < |issued| && issued[i].id == mark.value;
      assert (issued + more)[i] == issued[i];
    }
  }

  lemma NewIdsAreLarger(issued: seq<Update>, more: seq<Update>, floor: nat)
    requires Ascending(issued + more) && (floor > 0 ==> Known(issued, Some(floor - 1)))
    ensures forall i :: 0 <= i < |more| ==> more[i].id >= floor
  {
    if floor > 0 {
      var k :| 0 <= k < |issued| && issued[k].id == floor - 1;
      assert forall i :: 0 <= i < |more| ==> more[i] == (issued + more)[|issued| + i];
      assert (issued + more)[k] == issued[k];
    }
  }

  class Telegram {
    // the platform's side: everything it issued, how much of that it has forgotten, and the
    // largest offset it was given
    var issued: seq<Update>
    var gone: nat
    var floor: nat
    // the adapter's side: the mark in memory and the mark on disk
    var acked: Option<nat>
    var saved: Option<nat>
    /** No call and no write fails. */
    const quiet: bool
    /** Every answer that came back, in order. */
    ghost var answers: seq<seq<Update>>

    ghost predicate Valid()
      reads this
    {
      && Ascending(issued) && (forall i :: 0 <= i < |issued| ==> Wholesome(issued[i]))
      && gone <= |issued|
      && (forall i :: 0 <= i < |issued| ==> (i < gone <==> issued[i].id < floor))
      && (floor > 0 ==> Known(issued, Some(floor - 1)))
      && Known(issued, acked) && Known(issued, saved)
      && (saved.Some? ==> saved.value < floor)
    }

    constructor (quiet: bool)
      ensures Valid() && issued == [] && floor == 0 && acked == saved == None && answers == [] && this.quiet == quiet
    {
      issued, gone, floor, acked, saved, answers := [], 0, 0, None, None, [];
      this.quiet := quiet;
    }

    /** Any number of new updates, with larger ids than all before them. */
    method Arrive()
      requires Valid()
      modifies `issued
      ensures Valid() && old(issued) <= issued
    {
      hide Wholesome, Known;
      var more: seq<Update> := *;
      if Ascending(issued + more) && forall i :: 0 <= i < |more| ==> Wholesome(more[i]) {
        NewIdsAreLarger(issued, more, floor);
        KnownGrows(issued, more, acked);
        KnownGrows(issued, more, saved);
        if floor > 0 { KnownGrows(issued, more, Some(floor - 1)); }
        issued := issued + more;
      }
    }

    /** The platform forgets everything below an offset. */
    method Forget(offset: nat)
      requires Valid() && offset > 0 && Known(issued, Some(offset - 1))
      modifies `gone, `floor
      ensures Valid() && floor == if offset > old(floor) then offset else old(floor)
    {
      hide Wholesome, Known;
      if offset > floor {
        var k := gone;
        while k < |issued| && issued[k].id < offset
          invariant gone <= k <= |issued| && forall i :: 0 <= i < k ==> issued[i].id < offset
        {
          k := k + 1;
        }
        assert forall i :: k < i < |issued| ==> issued[i].id > issued[k].id;
        gone, floor := k, offset;
      }
    }

    /**
     One getUpdates call. The platform forgets everything below the offset and answers with
     some of the oldest it still holds; the call or its answer may be lost.
     */
    method Request(offset: Option<nat>) returns (ok: bool, batch: seq<Update>)
      requires Valid()
      requires offset.Some? ==> offset.value > 0 && Known(issued, Some(offset.value - 1))
      modifies `issued, `gone, `floor, `answers
      ensures Valid() && old(issued) <= issued
      ensures answers == old(answers) + if ok then [batch] else []
      ensures floor == old(floor) || (offset.Some? && floor == offset.value > old(floor))
      ensures ok && offset.Some? ==> floor >= offset.value
      ensures ok ==> batch <= issued[gone..]
      ensures quiet ==> ok
    {
      hide Wholesome, Known;
      Arrive();
      if offset.Some? { KnownGrows(old(issued), issued[|old(issued)|..], Some(offset.value - 1)); }
      assert issued == old(issued) + issued[|old(issued)|..];
      batch := [];
      var lost: bool, unanswered: bool := *, *;
      if lost && !quiet { return false, []; }
      if offset.Some? { Forget(offset.value); }
      if unanswered && !quiet { return false, []; }
      var n: nat := *;
      var held := issued[gone..];
      batch := if 0 <= n <= |held| then held[..n] else held;
      answers := answers + [batch];
      return true, batch;
    }

    method Fetch() returns (ok: bool, batch: seq<Update>)
      requires Valid()
      modifies `issued, `gone, `floor, `answers
      ensures Valid() && old(issued) <= issued
      ensures answers == old(answers) + if ok then [batch] else []
      ensures floor == old(floor) || (acked.Some? && floor == acked.value + 1)
      ensures ok ==> batch <= issued[gone..]
      ensures quiet ==> ok
    {
      ok, batch := Request(if acked.Some? then Some(acked.value + 1) else None);
    }

    method Ack(update: nat)
      requires Valid() && Known(issued, Some(update))
      modifies `acked
      ensures Valid()
      ensures acked == (if old(acked).Some? && update <= old(acked).value then old(acked) else Some(update))
    {
      if acked.None? || update > acked.value {
        acked := Some(update);
      }
    }

    /** Transmit, then persist: a mark reaches the disk only after the platform accepted it. */
    method Confirm() returns (ok: bool)
      requires Valid()
      modifies `issued, `gone, `floor, `saved, `answers
      ensures Valid() && old(issued) <= issued && old(answers) <= answers
      ensures floor == old(floor) || (acked.Some? && floor == acked.value + 1)
      ensures saved == old(saved) || saved == acked
      ensures ok && acked.Some? ==> saved == acked && acked.value < floor
      ensures quiet ==> ok
    {
      hide Wholesome;
      if acked.None? {
        Arrive();
        return true;
      }
      var batch;
      ok, batch := Request(Some(acked.value + 1));
      if !ok { return; }
      var fails: bool := *;
      if fails && !quiet { return false; }
      saved := acked;
    }

    /** A new process reads the mark from disk; a damaged file reads as no mark. */
    method Restart()
      requires Valid()
      modifies `acked, `saved
      ensures Valid() && acked == saved && (saved == old(saved) || saved == None)
    {
      if * {
        saved := None;
      }
      acked := saved;
    }
  }
}
