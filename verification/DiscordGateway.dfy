/**
 Opening the Discord gateway: Identify, Resume and the control frames that ask for either call
 each other. One fetch makes a bounded number of connections, what is sent answers what was heard,
 and Identifies keep a distance that outlives the fetch.
 */
module DiscordGateway {
  import opened Collections

  datatype Action = Resume | Identify

  datatype Dispatch = Ready | Resumed

  /** What the gateway says, as far as it matters for the connection. */
  datatype Frame = Reconnect | Invalid(resumable: bool) | Welcome(kind: Dispatch) | Other

  /** Why opening or reading breaks off. Spent and TooMany are the adapter's own limits; Lost takes the socket. */
  datatype Fault = Spent | TooMany | Silent | Lost | Failed

  const CONNECT_ATTEMPTS := 3
  const CONTROLS := 2

  /** How many sessions the platform lets start in one window. */
  type Concurrency = n: int | n >= 1 witness 1

  function Spacing(concurrency: Concurrency): (s: real)
    ensures 0.0 < s <= 5.0
  {
    5.0 / concurrency as real
  }

  /** One Identify: when its slot was taken, when its frame left or failed to, and what it holds the window by. */
  datatype Start = Start(taken: real, sent: real, concurrency: Concurrency) {
    /** How long it holds the window. */
    function Holds(): (s: real)
      ensures 0.0 < s <= 5.0
    {
      Spacing(concurrency)
    }

    function Delay(): real {
      sent - taken
    }

    function WindowEnd(): real {
      taken + Holds()
    }
  }

  /** The next Identify takes its slot outside the window of the one before, once that one's frame has left. */
  predicate Follows(earlier: Start, later: Start) {
    earlier.WindowEnd() <= later.taken && earlier.sent <= later.taken <= later.sent
  }

  /** The Identifies of one process, whose clock begins at zero. */
  ghost predicate Spaced(starts: seq<Start>) {
    && (starts != [] ==> 0.0 <= starts[0].taken <= starts[0].sent)
    && (forall i :: 0 <= i < |starts| - 1 ==> Follows(starts[i], starts[i + 1]))
  }

  // ---- what was done and heard, and what may come next ----

  datatype Act =
    | Begins                     // a fetch
    | Checked(found: bool)       // whether there is a file with a session that is young enough
    | Loads                      // the session is taken from it
    | Tries                      // one of the attempts of a fetch
    | Opened                     // the socket
    | Greeted                    // its Hello
    | Sent(action: Action)
    | Heard(frame: Frame)
    | Erased(left: bool)         // the session's file, after the platform ended the session; it may be left there
    | Obeys(action: Action)      // a control that was heard is taken up
    | Closed                     // by us, or found broken
    | Reads                      // live reading begins
    | TimesUp                    // what was waited for has not come in time
    | Broke(fault: Fault)

  datatype Link = Down | Dialling | Up | Met | Asked(action: Action) | On

  /** What the acts so far amount to. */
  datatype View = View(
    link: Link,
    told: Option<Action>,        // a control heard and not taken up
    cause: Option<Action>,       // what the next connection is for, where it is not the first one of a session
    checked: Option<bool>,       // what the look at the file since then has shown
    up: bool,                    // nothing has come since the time was up
    tries: nat,                  // in this fetch
    obeyed: nat,                 // in this fetch
    known: bool,                 // a session can be resumed
    ended: bool,                 // the platform ended the last session and has given no other
    left: bool)                  // and its file is still there

  const Nothing := View(Down, None, None, None, false, 0, 0, false, false, false)

  function Asks(f: Frame): Option<Action> {
    match f
    case Reconnect => Some(Resume)
    case Invalid(resumable) => Some(if resumable then Resume else Identify)
    case _ => None
  }

  function Hears(v: View, f: Frame): View {
    var w := v.(up := false);
    match f
    case Reconnect => w.(told := Asks(f))
    case Invalid(resumable) => w.(told := Asks(f), known := v.known && resumable, ended := v.ended || !resumable)
    case Welcome(kind) =>
      w.(link := if v.link == Asked(Resume) || (v.link == Asked(Identify) && kind == Ready) then On else v.link,
         known := v.known || kind == Ready, ended := v.ended && kind != Ready, left := v.left && kind != Ready)
    case Other => w
  }

  function After(v: View, act: Act): View {
    match act
    case Begins => v.(tries := 0, obeyed := 0, cause := None, checked := None)
    case Checked(found) => v.(checked := Some(found))
    case Loads => v.(known := true, cause := Some(Resume))
    case Tries => v.(tries := v.tries + 1, link := Dialling)
    case Opened => v.(link := Up)
    case Greeted => v.(link := Met)
    case Sent(action) => v.(link := Asked(action), cause := None, checked := None, up := false)
    case Heard(f) => Hears(v, f)
    case Erased(left) => v.(left := left)
    case Obeys(action) => v.(told := None, cause := Some(action), checked := None, obeyed := v.obeyed + 1)
    case Closed => v.(link := Down)
    case Reads => v.(up := false)
    case TimesUp => v.(up := true)
    case Broke(_) => v.(link := if v.link == Dialling then Down else v.link)
  }

  predicate IsOpen(link: Link) {
    link != Down && link != Dialling
  }

  /** What the protocol and the adapter's own limits allow next. */
  predicate May(v: View, act: Act) {
    match act
    case Begins => v.link != Dialling
    case Checked(found) => v.link == Down && (found && v.ended ==> v.left)
    case Loads => v.link == Down && v.tries == 0 && v.checked == Some(true) && (v.ended ==> v.left)
    case Tries => v.link == Down && v.tries < CONNECT_ATTEMPTS
    case Opened => v.link == Dialling
    case Greeted => v.link == Up
    case Sent(Resume) => v.link == Met && v.cause == Some(Resume) && (v.ended ==> v.left)
    case Sent(Identify) =>
      && v.link == Met
      && (v.cause == Some(Identify) || (v.checked == Some(false) && (v.cause == Some(Resume) ==> !v.known)))
    case Heard(f) => IsOpen(v.link)
    case Erased(left) => v.ended && !v.known
    case Obeys(action) => v.told == Some(action)
    case Closed => IsOpen(v.link)
    case Reads => IsOpen(v.link)
    case TimesUp => true
    case Broke(Spent) => v.tries == CONNECT_ATTEMPTS && !IsOpen(v.link)
    case Broke(TooMany) => v.told.Some? && v.obeyed >= CONTROLS
    case Broke(Silent) => v.up && !IsOpen(v.link)
    case Broke(Lost) => !IsOpen(v.link)
    case Broke(Failed) => true
  }

  function Seen(acts: seq<Act>): View {
    if acts == [] then Nothing else After(Seen(acts[..|acts| - 1]), acts[|acts| - 1])
  }

  ghost predicate Lawful(acts: seq<Act>) {
    forall i :: 0 <= i < |acts| ==> May(Seen(acts[..i]), acts[i])
  }

  lemma OneMoreAct(acts: seq<Act>, act: Act)
    ensures Seen(acts + [act]) == After(Seen(acts), act)
    ensures Lawful(acts) && May(Seen(acts), act) ==> Lawful(acts + [act])
  {
    var more := acts + [act];
    assert more[..|acts|] == acts;
    hide May, After;
    if Lawful(acts) && May(Seen(acts), act) {
      forall i | 0 <= i < |more| ensures May(Seen(more[..i]), more[i]) {
        assert more[..i] == acts[..i];
      }
    }
  }

  lemma StaysEnded(v: View, act: Act)
    requires v.ended && !v.left && May(v, act) && act != Heard(Welcome(Ready)) && act != Erased(true)
    ensures act != Sent(Resume) && After(v, act).ended && !After(v, act).left
  {
  }

  lemma StaysAsked(v: View, act: Act)
    requires !Starts(act)
    ensures After(v, act).cause == v.cause
  {
  }

  lemma OneFurther(acts: seq<Act>, i: nat)
    requires Lawful(acts) && i < |acts|
    ensures May(Seen(acts[..i]), acts[i]) && Seen(acts[..i + 1]) == After(Seen(acts[..i]), acts[i])
  {
    hide May, After, Seen;
    OneMoreAct(acts[..i], acts[i]);
    assert acts[..i] + [acts[i]] == acts[..i + 1];
  }

  /** A session that the platform ended, and whose file is gone, is not resumed until there is a new one. */
  lemma {:induction false} EndedIsNotResumed(acts: seq<Act>, n: nat)
    requires Lawful(acts) && n <= |acts| && Seen(acts[..n]).ended && !Seen(acts[..n]).left
    requires forall i :: n <= i < |acts| ==> acts[i] != Heard(Welcome(Ready)) && acts[i] != Erased(true)
    ensures forall i :: n <= i < |acts| ==> acts[i] != Sent(Resume)
    decreases |acts| - n
  {
    hide *;
    if n < |acts| {
      OneFurther(acts, n);
      StaysEnded(Seen(acts[..n]), acts[n]);
      EndedIsNotResumed(acts, n + 1);
    }
  }

  predicate Starts(act: Act) {
    act.Sent? || act.Obeys? || act.Begins? || act.Loads?
  }

  lemma {:induction false} CauseStands(acts: seq<Act>, i: nat, j: nat)
    requires Lawful(acts) && i < j < |acts| && acts[i].Obeys?
    requires forall k :: i < k < j ==> !Starts(acts[k])
    ensures Seen(acts[..j]).cause == Some(acts[i].action)
    decreases j
  {
    OneFurther(acts, j - 1);
    hide Seen, Lawful, May;
    if i < j - 1 {
      hide After, Starts;
      StaysAsked(Seen(acts[..j - 1]), acts[j - 1]);
      CauseStands(acts, i, j - 1);
    }
  }

  /** What is sent next answers the control that was taken up. */
  lemma SendsWhatWasAsked(acts: seq<Act>, i: nat, j: nat)
    requires Lawful(acts) && i < j < |acts| && acts[i].Obeys? && acts[j].Sent?
    requires forall k :: i < k < j ==> !Starts(acts[k])
    ensures acts[i].action == Identify || Seen(acts[..j]).known ==> acts[j].action == acts[i].action
  {
    CauseStands(acts, i, j);
    assert May(Seen(acts[..j]), acts[j]);
    hide Seen;
  }

  /** Somewhere since, it broke off. */
  ghost predicate BrokeOff(before: seq<Act>, acts: seq<Act>) {
    before <= acts && exists i :: |before| <= i < |acts| && acts[i].Broke?
  }

  lemma BrokeOffEarlier(before: seq<Act>, mid: seq<Act>, acts: seq<Act>)
    requires before <= mid
    ensures BrokeOff(mid, acts) ==> BrokeOff(before, acts)
  {
  }

  ghost predicate HasRead(before: seq<Act>, acts: seq<Act>) {
    before <= acts && exists i :: |before| <= i < |acts| && acts[i] == Reads
  }

  lemma ReadsLater(before: seq<Act>, mid: seq<Act>, acts: seq<Act>)
    requires before <= mid && mid + [Reads] <= acts
    ensures HasRead(before, acts)
  {
    assert acts[|mid|] == Reads;
  }

  /** The next thing heard since was a welcome. */
  ghost predicate Welcomes(before: seq<Act>, acts: seq<Act>) {
    |before| < |acts| && acts[|before|].Heard? && acts[|before|].frame.Welcome?
  }

  /** More was done, and of Identifies no more than of attempts. */
  ghost predicate Went(acts: seq<Act>, starts: seq<Start>, now: seq<Act>, later: seq<Start>) {
    && acts <= now && starts <= later && Seen(acts).tries <= Seen(now).tries && Seen(acts).obeyed <= Seen(now).obeyed
    && |later| - |starts| <= Seen(now).tries - Seen(acts).tries
  }

  lemma NothingWent(acts: seq<Act>, starts: seq<Start>)
    ensures Went(acts, starts, acts, starts)
  {
  }

  lemma CheckWent(acts: seq<Act>, starts: seq<Start>, now: seq<Act>)
    requires acts <= now && Seen(now).tries == Seen(acts).tries && Seen(now).obeyed == Seen(acts).obeyed
    ensures Went(acts, starts, now, starts)
  {
  }

  lemma WentOn(
      a: seq<Act>, starts: seq<Start>, b: seq<Act>, mid: seq<Start>, c: seq<Act>, later: seq<Start>)
    requires Went(a, starts, b, mid) && Went(b, mid, c, later)
    ensures Went(a, starts, c, later) && a <= b <= c && Seen(b).obeyed <= Seen(c).obeyed
  {
    hide Seen;
  }

  lemma EndsBroken(before: seq<Act>, acts: seq<Act>)
    ensures before < acts && acts[|acts| - 1].Broke? ==> BrokeOff(before, acts)
  {
  }

  class Gateway {
    /** The monotonic clock. */
    var now: real
    var open: bool
    var control: Option<Action>
    var dispatch: Option<Dispatch>
    /** A session that can be resumed: in memory, and in its file where there is a state directory. */
    var session: bool
    var stored: bool
    const keeps: bool
    /** No call of ours fails, and the Hello always comes. */
    const quiet: bool
    var attempts: nat
    var nextIdentify: Option<real>

    ghost var acts: seq<Act>
    ghost var starts: seq<Start>

    ghost function Sight(): View
      reads `acts
    {
      Seen(acts)
    }

    /** The fields are what these acts amount to. */
    ghost predicate TiedTo(v: View)
      reads `open, `control, `dispatch, `session, `stored, `attempts
    {
      && v.link != Dialling && open == IsOpen(v.link)
      && control == v.told && session == v.known && (v.ended && (stored || session) ==> v.left)
      && v.tries == (if attempts < CONNECT_ATTEMPTS then attempts else CONNECT_ATTEMPTS)
      && (open ==> attempts <= CONNECT_ATTEMPTS)
      && (open && dispatch.Some? ==>
           v.link == On || v.link == Up || v.link == Met || (v.link == Asked(Identify) && dispatch == Some(Resumed)))
      && (v.link == On ==> dispatch.Some?)
    }

    ghost predicate Tied()
      reads `open, `control, `dispatch, `session, `stored, `attempts, `acts
    {
      Lawful(acts) && TiedTo(Sight())
    }

    ghost predicate Timed()
      reads `now, `nextIdentify, `starts
    {
      && Spaced(starts) && now >= 0.0
      && (starts == [] ==> nextIdentify.None?)
      && (starts != [] ==> var last := starts[|starts| - 1];
                           nextIdentify == Some(last.WindowEnd()) && last.sent <= now)
    }

    ghost predicate Valid()
      reads this
    {
      Tied() && Timed()
    }

    constructor (stored: bool, keeps: bool, quiet: bool)
      ensures Valid() && starts == [] && acts == [] && now == 0.0 && attempts == 0 && !open && !session
      ensures control == None && this.stored == stored && this.keeps == keeps && this.quiet == quiet
    {
      now, open, control, dispatch, session, attempts, nextIdentify := 0.0, false, None, None, false, 0, None;
      this.stored, this.keeps, this.quiet := stored, keeps, quiet;
      acts, starts := [], [];
    }

    method Pass(time: real)
      requires Timed() && time >= 0.0
      modifies `now
      ensures Timed() && now == old(now) + time
    {
      now := now + time;
    }

    method Wait(least: real)
      requires Timed() && least >= 0.0
      modifies `now
      ensures Timed() && now >= old(now) + least
    {
      var more: real := *;
      Pass(least + if more > 0.0 then more else 0.0);
    }

    // ---- single acts ----

    ghost method Do(act: Act)
      requires Lawful(acts) && May(Sight(), act)
      modifies `acts
      ensures Lawful(acts) && acts == old(acts) + [act] && Sight() == After(old(Sight()), act)
    {
      hide May, After;
      OneMoreAct(acts, act);
      acts := acts + [act];
    }

    method Begin()
      requires Tied()
      modifies `attempts, `acts
      ensures Tied() && attempts == 0 && acts == old(acts) + [Begins]
      ensures Sight() == After(old(Sight()), Begins)
    {
      hide Lawful, Seen;
      Do(Begins);
      attempts := 0;
    }

    /** The socket is closed, or found broken. */
    method Close()
      requires Tied()
      modifies `open, `acts
      ensures Tied() && !open && acts == old(acts) + if old(open) then [Closed] else []
      ensures Sight() == old(Sight()).(link := Down)
    {
      hide Lawful, Seen;
      if open {
        Do(Closed);
        open := false;
      }
    }

    ghost method Fail()
      requires Tied()
      modifies `acts
      ensures Tied() && acts == old(acts) + [Broke(Failed)] && Sight() == old(Sight())
    {
      hide Lawful, Tied;
      Break(Failed);
    }

    ghost method TimeRunsOut()
      requires Tied()
      modifies `acts
      ensures Tied() && acts == old(acts) + [TimesUp] && Sight() == old(Sight()).(up := true)
    {
      hide Lawful, Seen;
      Do(TimesUp);
    }

    /** The socket was closed, or is found broken. */
    method Lose()
      requires Tied()
      modifies `open, `acts
      ensures Tied() && !open && acts == old(acts) + (if old(open) then [Closed] else []) + [Broke(Lost)]
      ensures Sight() == old(Sight()).(link := Down)
    {
      hide Tied;
      Close();
      Break(Lost);
    }

    /** Nothing came in time. */
    method Silence()
      requires Tied() && open
      modifies `open, `acts
      ensures Tied() && !open && acts == old(acts) + [TimesUp, Closed, Broke(Silent)]
      ensures Sight() == old(Sight()).(link := Down, up := true)
    {
      hide Tied;
      TimeRunsOut();
      Close();
      Break(Silent);
    }

    /** A third control is too many. */
    ghost method Refuse()
      requires Tied() && control.Some? && Sight().obeyed >= CONTROLS
      modifies `acts
      ensures Tied() && acts == old(acts) + [Broke(TooMany)] && Sight() == old(Sight())
      ensures BrokeOff(old(acts), acts) && Went(old(acts), starts, acts, starts)
    {
      Break(TooMany);
      EndsBroken(old(acts), acts);
    }

    ghost method Break(fault: Fault)
      requires Tied() && May(Sight(), Broke(fault))
      modifies `acts
      ensures Tied() && acts == old(acts) + [Broke(fault)] && Sight() == old(Sight())
    {
      hide Lawful, May;
      Do(Broke(fault));
    }

    /** One attempt of the fetch, and the socket, if it can be had. */
    method Dial(works: bool) returns (ok: bool)
      requires Tied() && !open && attempts <= CONNECT_ATTEMPTS
      modifies `attempts, `open, `dispatch, `acts
      ensures Tied() && ok == (works && old(attempts) < CONNECT_ATTEMPTS) && attempts == old(attempts) + 1
      ensures if ok then acts == old(acts) + [Tries, Opened]
              else if old(attempts) < CONNECT_ATTEMPTS then acts == old(acts) + [Tries, Broke(Failed)]
              else acts == old(acts) + [Broke(Spent)]
      ensures open == ok && (ok ==> dispatch == None)
      ensures Sight() == old(Sight()).(link := if ok then Up else Down, tries := Sight().tries)
      ensures Sight().tries == old(Sight().tries) + if old(attempts) < CONNECT_ATTEMPTS then 1 else 0
    {
      hide Lawful, Seen;
      attempts := attempts + 1;
      if attempts > CONNECT_ATTEMPTS {
        Do(Broke(Spent));
        return false;
      }
      Do(Tries);
      if !works {
        Do(Broke(Failed));
        return false;
      }
      Do(Opened);
      open, dispatch := true, None;
      return true;
    }

    method Send(action: Action)
      requires Tied() && open && May(Sight(), Sent(action)) && dispatch == None
      modifies `acts
      ensures Tied() && acts == old(acts) + [Sent(action)] && Sight() == After(old(Sight()), Sent(action))
    {
      hide Lawful, Seen;
      Do(Sent(action));
    }

    /** A frame comes. */
    method Arrives() returns (f: Frame)
      requires Tied() && open
      modifies `acts
      ensures Lawful(acts) && acts == old(acts) + [Heard(f)] && TiedTo(old(Sight()))
              && Sight() == Hears(old(Sight()), f)
    {
      hide Lawful, Seen;
      f := *;
      Do(Heard(f));
    }

    /** It is obeyed or noted; an ended session is forgotten, and its file erased if it can be. */
    method Handle(f: Frame, left: bool, ghost v: View)
      requires Lawful(acts) && open && TiedTo(v) && Sight() == Hears(v, f)
      modifies `control, `dispatch, `session, `stored, `acts
      ensures Tied() && old(acts) <= acts && (stored ==> old(stored))
      ensures f != Invalid(false) ==> stored == old(stored) && acts == old(acts)
      ensures f == Invalid(false) ==> stored == (old(stored) && left) && acts == old(acts) + [Erased(stored)]
      ensures Sight() == if f == Invalid(false) then old(Sight()).(left := stored) else old(Sight())
      ensures dispatch == if f.Welcome? then Some(f.kind) else old(dispatch)
    {
      hide Lawful, Seen;
      match f
      case Reconnect => control := Some(Resume);
      case Invalid(resumable) =>
        control := Some(if resumable then Resume else Identify);
        if !resumable {
          session, stored := false, stored && left;
          Do(Erased(stored));
        }
      case Welcome(kind) =>
        assert v.link.Asked? ==> v.link.action == Resume || v.link.action == Identify;
        session, dispatch := session || kind == Ready, Some(kind);
      case Other =>
    }

    /** This frame, and what there is to be done about it. */
    method Hear(f: Frame, left: bool)
      requires Tied() && open
      modifies `control, `dispatch, `session, `stored, `acts
      ensures Tied() && old(acts) + [Heard(f)] <= acts
      ensures f != Invalid(false) ==> stored == old(stored) && Sight() == Hears(old(Sight()), f)
      ensures f == Invalid(false) ==>
                stored == (old(stored) && left) && Sight() == Hears(old(Sight()), f).(left := stored)
      ensures dispatch == if f.Welcome? then Some(f.kind) else old(dispatch)
    {
      hide Lawful, Seen, TiedTo;
      ghost var v := Sight();
      assert TiedTo(v) && IsOpen(v.link) by { IsTied(); }
      Do(Heard(f));
      Handle(f, left, v);
    }

    lemma IsTied()
      requires Tied()
      ensures TiedTo(Sight()) && open == IsOpen(Sight().link)
    {
    }

    /** The session is written to its file. */
    method Touch(works: bool) returns (ok: bool)
      requires Tied()
      modifies `stored
      ensures Tied() && ok == (works || !keeps || !session)
      ensures stored == (old(stored) || (works && keeps && session))
    {
      hide Lawful, Seen;
      ok := true;
      if keeps && session {
        if !works { return false; }
        stored := true;
      }
    }

    ghost method Check(found: bool)
      requires Tied() && !open && (found ==> stored)
      modifies `acts
      ensures Tied() && acts == old(acts) + [Checked(found)] && Sight() == old(Sight()).(checked := Some(found))
    {
      hide Lawful, Seen;
      Do(Checked(found));
    }

    /** Whether the file has a session that is young enough. */
    method FreshSession() returns (found: bool)
      requires Tied() && !open
      modifies `acts
      ensures Tied() && acts == old(acts) + [Checked(found)] && Sight() == old(Sight()).(checked := Some(found))
      ensures found ==> stored
    {
      hide Tied;
      var young: bool := *;
      found := stored && young;
      Check(found);
    }

    method Load()
      requires Tied() && !open && stored && attempts == 0 && Sight().checked == Some(true)
      modifies `session, `acts
      ensures Tied() && session && acts == old(acts) + [Loads] && Sight() == After(old(Sight()), Loads)
    {
      hide Lawful, Seen;
      Do(Loads);
      session := true;
    }

    /** A control is taken up: its connection is closed first. */
    method TakeControl() returns (action: Action)
      requires Tied() && control.Some? && open
      modifies `control, `dispatch, `open, `acts
      ensures Tied() && !open && control == None && action == old(control).value
      ensures acts == old(acts) + [Obeys(action), Closed]
      ensures Sight() == After(old(Sight()), Obeys(action)).(link := Down)
      ensures Went(old(acts), starts, acts, starts) && attempts <= CONNECT_ATTEMPTS
    {
      hide Lawful, Seen;
      action := control.value;
      Do(Obeys(action));
      control, dispatch := None, None;
      Do(Closed);
      open := false;
    }

    /**
     What was waited for did not come. The connection that is given up was welcomed only where READY was
     waited for and another connection was resumed meanwhile.
     */
    method GiveUp(kinds: set<Dispatch>)
      requires Tied() && Awaits(kinds) && (dispatch.Some? ==> dispatch.value !in kinds)
      modifies `open, `acts
      ensures Tied() && !open && acts == old(acts) + [TimesUp, Closed, Broke(Silent)]
      ensures BrokeOff(old(acts), acts) && Went(old(acts), starts, acts, starts)
      ensures old(Sight().link) == On ==> kinds == {Ready} && dispatch == Some(Resumed)
    {
      WelcomedYetSilent(kinds);
      hide Tied, Awaits, Seen;
      Silence();
      EndsBroken(old(acts), acts);
    }

    lemma WelcomedYetSilent(kinds: set<Dispatch>)
      requires Tied() && Awaits(kinds) && (dispatch.Some? ==> dispatch.value !in kinds)
      ensures open && (Sight().link == On ==> kinds == {Ready} && dispatch == Some(Resumed))
    {
      assert dispatch.Some? ==> dispatch.value == Ready || dispatch.value == Resumed;
    }

    // ---- slots ----

    /** A slot is taken outside the window of the Identify before, and its frame has not left. */
    ghost predicate Held(taken: real, concurrency: Concurrency)
      reads `now, `nextIdentify, `starts
    {
      && Spaced(starts) && 0.0 <= taken <= now
      && nextIdentify == Some(taken + Spacing(concurrency))
      && (starts == [] || Follows(starts[|starts| - 1], Start(taken, taken, concurrency)))
    }

    /** A slot outside the earlier window; it holds the next one from when it was taken. */
    method HoldSlot(at: real, concurrency: Concurrency)
      requires Timed() && 0.0 <= at <= now && (nextIdentify.Some? ==> nextIdentify.value <= at)
      requires starts == [] || starts[|starts| - 1].sent <= at
      modifies `nextIdentify
      ensures Held(at, concurrency)
    {
      nextIdentify := Some(at + Spacing(concurrency));
    }

    /** Waits out the gap in short pauses; the heartbeat may fail meanwhile. */
    method TakeIdentifySlot(concurrency: Concurrency) returns (ok: bool, taken: real)
      requires Valid() && open
      modifies `now, `nextIdentify, `open, `acts
      ensures Tied() && (if ok then Held(taken, concurrency) else Timed())
      ensures now >= old(now) && open == ok
      ensures if ok then acts == old(acts) else acts == old(acts) + [Closed, Broke(Lost)]
      ensures Sight() == if ok then old(Sight()) else old(Sight()).(link := Down)
      ensures ok ==> old(nextIdentify).Some? ==> old(nextIdentify).value <= taken
      ensures quiet ==> ok
    {
      hide Tied;
      var at := now;
      while nextIdentify.Some? && at < nextIdentify.value
        invariant Tied() && Timed() && old(now) <= at <= now && open && acts == old(acts)
        invariant nextIdentify == old(nextIdentify)
        decreases if nextIdentify.Some? && at < nextIdentify.value then (nextIdentify.value - at).Floor + 1 else 0
      {
        var broken: bool := *;
        if broken && !quiet {
          Lose();
          return false, at;
        }
        var gap := nextIdentify.value - at;
        Wait(if gap < 1.0 then gap else 1.0);
        ghost var before := at;
        at := now;
        assert at >= before + if gap < 1.0 then gap else 1.0;
      }
      HoldSlot(at, concurrency);
      return true, at;
    }

    /** The frame leaves some time after its slot was taken. */
    method Depart(taken: real, concurrency: Concurrency, delay: real)
      requires Held(taken, concurrency) && delay >= 0.0
      modifies `now, `starts
      ensures Timed() && now == old(now) + delay && starts == old(starts) + [Start(taken, now, concurrency)]
    {
      now := now + delay;
      starts := starts + [Start(taken, now, concurrency)];
    }

    method SendIdentify(concurrency: Concurrency) returns (ok: bool)
      requires Valid() && open && May(Sight(), Sent(Identify)) && dispatch == None
      modifies `now, `nextIdentify, `open, `starts, `acts
      ensures Valid() && old(starts) <= starts && |starts| <= |old(starts)| + 1
      ensures |starts| > |old(starts)| ==>
                starts[|old(starts)|].concurrency == concurrency && starts[|old(starts)|].sent == now
      ensures ok ==> |starts| == |old(starts)| + 1 && open && acts == old(acts) + [Sent(Identify)]
      ensures ok ==> Sight() == After(old(Sight()), Sent(Identify))
      ensures !ok ==> BrokeOff(old(acts), acts) && Sight() == old(Sight()).(link := Down)
      ensures (quiet ==> ok) && old(now) <= now
    {
      hide Tied, May, After, Lawful;
      var taken;
      ok, taken := TakeIdentifySlot(concurrency);
      EndsBroken(old(acts), acts);
      if !ok { return; }
      var delay: real, works: bool := *, *;
      Depart(taken, concurrency, if delay > 0.0 then delay else 0.0);
      if !works && !quiet {
        Lose();
        EndsBroken(old(acts), acts);
        return false;
      }
      Send(Identify);
    }

    // ---- opening ----

    /** There is a connection, and the platform said on it what was waited for. */
    ghost predicate Welcomed(kinds: set<Dispatch>)
      reads `open, `dispatch, `acts
    {
      open && Sight().link == On && dispatch.Some? && dispatch.value in kinds
    }

    /** The Hello. */
    method Greet() returns (ok: bool)
      requires Valid() && open && Sight().link == Up && dispatch == None
      modifies `now, `open, `acts
      ensures Valid() && old(now) <= now && (ok ==> open && Sight() == old(Sight()).(link := Met) && old(acts) <= acts)
      ensures !ok ==> BrokeOff(old(acts), acts) && Sight() == old(Sight()).(link := Sight().link, up := Sight().up)
      ensures quiet ==> ok
    {
      hide Timed, Tied;
      Wait(0.0);
      ok := false;
      if {
        case true => ok := true; Meets();
        case !quiet => Silence();
        case !quiet => Lose();
        case !quiet => Fail();
      }
      EndsBroken(old(acts), acts);
    }

    ghost method Meets()
      requires Tied() && Sight().link == Up && dispatch == None
      modifies `acts
      ensures Tied() && acts == old(acts) + [Greeted] && Sight() == old(Sight()).(link := Met)
    {
      hide Lawful, Seen;
      Do(Greeted);
    }

    /** A socket, and its Hello. */
    method Reach() returns (ok: bool)
      requires Valid() && !open && attempts <= CONNECT_ATTEMPTS
      modifies `now, `attempts, `open, `dispatch, `acts
      ensures Valid() && old(acts) <= acts && old(now) <= now && attempts == old(attempts) + 1
      ensures ok ==> open && Sight().link == Met && dispatch == None
      ensures Sight() == old(Sight()).(link := Sight().link, up := Sight().up, tries := Sight().tries)
      ensures old(Sight().tries) <= Sight().tries && (ok ==> Sight().tries == old(Sight().tries) + 1)
      ensures !ok ==> BrokeOff(old(acts), acts)
      ensures quiet && old(attempts) < CONNECT_ATTEMPTS ==> ok
    {
      hide Lawful, Timed, Seen, TiedTo;
      var works: bool := *;
      ok := Dial(works || quiet);
      EndsBroken(old(acts), acts);
      if !ok { return; }
      ghost var before := acts;
      ok := Greet();
      BrokeOffEarlier(old(acts), before, acts);
    }

    /** Identify is asked for, or there is no session to resume. */
    ghost predicate MayIdentify()
      reads `session, `acts
    {
      Sight().cause == Some(Identify)
      || (Sight().checked == Some(false) && (Sight().cause == Some(Resume) ==> !session))
    }

    /** Up to the frame: the gateway's address and its limits first; none left to start is a refusal. */
    method AskForIdentify() returns (ok: bool)
      requires Valid() && !open && attempts <= CONNECT_ATTEMPTS && MayIdentify()
      modifies `now, `nextIdentify, `attempts, `open, `dispatch, `starts, `acts
      ensures Valid() && Went(old(acts), old(starts), acts, starts)
      ensures ok ==> Sight().link == Asked(Identify) && dispatch == None && old(attempts) < attempts
      ensures !ok ==> BrokeOff(old(acts), acts)
      ensures old(attempts) <= attempts
      ensures (quiet && old(attempts) < CONNECT_ATTEMPTS ==> ok) && old(now) <= now
    {
      hide Lawful, Timed, Seen;
      var refused: bool, concurrency: Concurrency := *, *;
      if refused && !quiet {
        Fail();
        EndsBroken(old(acts), acts);
        return false;
      }
      ok := Reach();
      if !ok { return; }
      ghost var before := acts;
      ok := SendIdentify(concurrency);
      BrokeOffEarlier(old(acts), before, acts);
    }

    method AskForResume() returns (ok: bool)
      requires Valid() && !open && attempts <= CONNECT_ATTEMPTS && Sight().cause == Some(Resume) && (stored || session)
      modifies `now, `attempts, `open, `dispatch, `acts
      ensures Valid() && Went(old(acts), starts, acts, starts)
      ensures ok ==> Sight().link == Asked(Resume) && dispatch == None && old(attempts) < attempts
      ensures !ok ==> BrokeOff(old(acts), acts)
      ensures old(attempts) <= attempts
      ensures (quiet && old(attempts) < CONNECT_ATTEMPTS ==> ok) && old(now) <= now
    {
      hide Lawful, Timed, Seen;
      ok := Reach();
      if !ok { return; }
      ghost var before := acts;
      var works: bool := *;
      if !works && !quiet {
        Lose();
        EndsBroken(before, acts);
        BrokeOffEarlier(old(acts), before, acts);
        return false;
      }
      Send(Resume);
    }

    method OpenIdentify() returns (ok: bool)
      requires Valid() && !open && attempts <= CONNECT_ATTEMPTS && MayIdentify()
      modifies this
      ensures Valid() && Went(old(acts), old(starts), acts, starts)
      ensures if ok then Welcomed({Ready}) else BrokeOff(old(acts), acts)
      ensures old(attempts) <= attempts
      ensures old(now) <= now
      decreases CONNECT_ATTEMPTS - attempts, 0, 0
    {
      ok := AskForIdentify();
      if !ok { return; }
      assert open && attempts <= CONNECT_ATTEMPTS;
      hide *;
      ghost var done, left := acts, starts;
      ok := Until({Ready});
      WentOn(old(acts), old(starts), done, left, acts, starts);
      BrokeOffEarlier(old(acts), done, acts);
    }

    method OpenResume() returns (ok: bool)
      requires Valid() && !open && attempts <= CONNECT_ATTEMPTS && Sight().cause == Some(Resume) && (stored || session)
      modifies this
      ensures Valid() && Went(old(acts), old(starts), acts, starts)
      ensures if ok then Welcomed({Ready, Resumed}) else BrokeOff(old(acts), acts)
      ensures old(attempts) <= attempts
      ensures old(now) <= now
      decreases CONNECT_ATTEMPTS - attempts, 0, 0
    {
      ok := AskForResume();
      if !ok { return; }
      assert open && attempts <= CONNECT_ATTEMPTS;
      hide *;
      ghost var done, left := acts, starts;
      ok := Until({Ready, Resumed});
      WentOn(old(acts), old(starts), done, left, acts, starts);
      BrokeOffEarlier(old(acts), done, acts);
    }

    /** What the connection may be while this is waited for. */
    ghost predicate Awaits(kinds: set<Dispatch>)
      reads `open, `acts
    {
      && open && (kinds == {Ready} || kinds == {Ready, Resumed})
      && (Sight().link == On || Sight().link == Asked(if kinds == {Ready} then Identify else Resume))
    }

    /** Frames until one of these, a control frame being obeyed at most twice. */
    method Until(kinds: set<Dispatch>) returns (ok: bool)
      requires Valid() && Awaits(kinds) && dispatch == None
      modifies this
      ensures Valid() && Went(old(acts), old(starts), acts, starts) && old(attempts) <= attempts
      ensures if ok then Welcomed(kinds) else BrokeOff(old(acts), acts)
      decreases CONNECT_ATTEMPTS - attempts, 2, 1
      ensures old(now) <= now
    {
      var frames: nat :| true;
      var controls := 0;
      NothingWent(acts, starts);
      hide Tied, Timed, Lawful, Seen, Went, BrokeOff, Awaits, Welcomed, May, After;
      for f := 0 to frames
        invariant Valid() && Awaits(kinds) && old(attempts) <= attempts
        invariant old(now) <= now
        invariant Went(old(acts), old(starts), acts, starts) && controls <= Sight().obeyed
      {
        if control.None? && dispatch.Some? && dispatch.value in kinds {
          IsWelcomed(kinds);
          return true;
        }
        if control.Some? { controls := controls + 1; }
        ghost var done, left := acts, starts;
        var heard := control.None?;
        ok := TakeNext(kinds, controls);
        WentOn(old(acts), old(starts), done, left, acts, starts);
        BrokeOffEarlier(old(acts), done, acts);
        if !ok { return; }
        if heard && dispatch.Some? && dispatch.value in kinds {
          IsWelcomed(kinds);
          return true;
        }
      }
      if dispatch.Some? && dispatch.value in kinds {
        IsWelcomed(kinds);
        return true;
      }
      ghost var done, left := acts, starts;
      IsAwaited(kinds);
      GiveUp(kinds);
      WentOn(old(acts), old(starts), done, left, acts, starts);
      BrokeOffEarlier(old(acts), done, acts);
      return false;
    }

    /** The next control that was heard, or the next frame. */
    method TakeNext(kinds: set<Dispatch>, controls: nat) returns (ok: bool)
      requires Valid() && Awaits(kinds) && (control.Some? ==> 1 <= controls <= Sight().obeyed + 1)
      modifies this
      ensures Valid() && Went(old(acts), old(starts), acts, starts) && old(attempts) <= attempts
      ensures if ok then Awaits(kinds) else BrokeOff(old(acts), acts)
      ensures ok && old(control).Some? ==> controls <= CONTROLS && controls <= Sight().obeyed
      decreases CONNECT_ATTEMPTS - attempts, 2, 0
      ensures old(now) <= now
    {
      hide Tied, Timed, Lawful, Seen, Went, BrokeOff, Welcomed, May, After;
      IsAwaited(kinds);
      if control.Some? {
        if controls > CONTROLS {
          Refuse();
          return false;
        }
        ok := ApplyControl();
        if ok { AwaitsMore(kinds); }
      } else {
        ghost var link := Sight().link;
        ok := Receive();
        if ok { StillAwaited(kinds, link); }
      }
    }

    lemma IsAwaited(kinds: set<Dispatch>)
      requires Tied() && Awaits(kinds)
      ensures open && attempts <= CONNECT_ATTEMPTS
    {
    }

    lemma IsWelcomed(kinds: set<Dispatch>)
      requires Tied() && Awaits(kinds) && dispatch.Some? && dispatch.value in kinds
      ensures Welcomed(kinds)
    {
    }

    lemma AwaitsMore(kinds: set<Dispatch>)
      requires Welcomed({Ready, Resumed}) && (kinds == {Ready} || kinds == {Ready, Resumed})
      ensures Awaits(kinds)
    {
    }

    lemma StillAwaited(kinds: set<Dispatch>, link: Link)
      requires open && (kinds == {Ready} || kinds == {Ready, Resumed})
      requires link == On || link == Asked(if kinds == {Ready} then Identify else Resume)
      requires Sight().link == link || Sight().link == On
      ensures Awaits(kinds)
    {
    }

    /** Time passes, and perhaps something comes: a frame, one that cannot be read, or the end of the connection. */
    method Receive() returns (ok: bool)
      requires Valid() && open
      modifies `now, `open, `control, `dispatch, `session, `stored, `acts
      ensures Valid() && Went(old(acts), starts, acts, starts)
      ensures ok ==> open && (Sight().link == old(Sight().link) || Sight().link == On)
      ensures ok && old(Sight().link) == On ==> Sight().link == On
      ensures ok && Welcomes(old(acts), acts) ==> keeps && session ==> stored
      ensures !ok ==> BrokeOff(old(acts), acts)
      ensures old(now) <= now
      ensures ok ==> !BrokeOff(old(acts), acts)
      ensures !Welcomes(old(acts), acts) ==> stored ==> old(stored)
    {
      hide Timed, Lawful, May, Seen, TiedTo;
      assert TiedTo(Sight()) && IsOpen(Sight().link) by { IsTied(); }
      Wait(0.0);
      NothingWent(acts, starts);
      if {
        case true => return true;
        case true => Fail(); EndsBroken(old(acts), acts); return false;
        case true => Lose(); EndsBroken(old(acts), acts); return false;
        case true => ok := TakeFrame();
      }
    }

    /** A frame comes, and a session that was welcomed is kept. */
    method TakeFrame() returns (ok: bool)
      requires Tied() && open
      modifies `open, `control, `dispatch, `session, `stored, `acts
      ensures Tied() && Went(old(acts), starts, acts, starts)
      ensures ok ==> open && (Sight().link == old(Sight().link) || Sight().link == On)
      ensures ok && old(Sight().link) == On ==> Sight().link == On
      ensures ok && Welcomes(old(acts), acts) ==> keeps && session ==> stored
      ensures !ok ==> BrokeOff(old(acts), acts)
      ensures ok ==> !BrokeOff(old(acts), acts)
      ensures !Welcomes(old(acts), acts) ==> stored ==> old(stored)
    {
      hide Lawful, May, Seen, TiedTo;
      assert TiedTo(Sight()) && IsOpen(Sight().link) by { IsTied(); }
      ghost var v := Sight();
      var left: bool, works: bool := *, *;
      var f := Arrives();
      Handle(f, left, v);
      ok := true;
      if f.Welcome? { ok := Touch(works); }
      if !ok {
        Lose();
        EndsBroken(old(acts), acts);
      }
    }

    method ApplyControl() returns (ok: bool)
      requires Valid() && control.Some? && open
      modifies this
      ensures Valid() && Went(old(acts), old(starts), acts, starts) && old(attempts) <= attempts
      ensures if ok then Welcomed({Ready, Resumed}) else BrokeOff(old(acts), acts)
      ensures old(Sight().obeyed) < Sight().obeyed
      decreases CONNECT_ATTEMPTS - attempts, 1, 0
      ensures old(now) + (if old(control) == Some(Identify) then 1.0 else 0.0) <= now
    {
      hide Lawful, Timed, Seen, Went, BrokeOff, Welcomed, May, TiedTo;
      var action := TakeControl();
      ghost var done, left := acts, starts;
      if action == Identify {
        Wait(1.0);
        ok := OpenIdentify();
      } else {
        ok := OpenAgain();
      }
      WentOn(old(acts), old(starts), done, left, acts, starts);
      if ok { WelcomedEither(); }
      BrokeOffEarlier(old(acts), done, acts);
    }

    /** A new connection was asked for: the session is resumed, if there is one. */
    method OpenAgain() returns (ok: bool)
      requires Valid() && !open && attempts <= CONNECT_ATTEMPTS && Sight().cause == Some(Resume)
      modifies this
      ensures Valid() && Went(old(acts), old(starts), acts, starts) && old(attempts) <= attempts && old(now) <= now
      ensures if ok then Welcomed({Ready, Resumed}) else BrokeOff(old(acts), acts)
      decreases CONNECT_ATTEMPTS - attempts, 0, 1
    {
      hide Lawful, Timed, TiedTo, Went, BrokeOff, Welcomed;
      var found := FreshSession();
      ghost var done := acts;
      CheckWent(old(acts), starts, acts);
      hide Seen;
      if found || session {
        ok := OpenResume();
      } else {
        ok := OpenIdentify();
      }
      WentOn(old(acts), old(starts), done, old(starts), acts, starts);
      if ok { WelcomedEither(); }
      BrokeOffEarlier(old(acts), done, acts);
    }

    lemma WelcomedEither()
      requires Welcomed({Ready}) || Welcomed({Ready, Resumed})
      ensures Welcomed({Ready, Resumed})
    {
    }

    // ---- fetches ----

    /** A connection where there is none: the session of the file is resumed if it is young enough. */
    method EnsureConnection() returns (ok: bool)
      requires Valid() && !open && attempts == 0 && Sight().cause == None
      modifies this
      ensures Valid() && Went(old(acts), old(starts), acts, starts)
      ensures if ok then Welcomed({Ready, Resumed}) else BrokeOff(old(acts), acts)
      ensures old(now) <= now
    {
      hide Lawful, Timed, TiedTo, Went, BrokeOff, Welcomed;
      var found := FreshSession();
      CheckWent(old(acts), starts, acts);
      if found {
        Load();
        CheckWent(old(acts), starts, acts);
        ghost var done := acts;
        hide Seen;
        ok := OpenResume();
        WentOn(old(acts), old(starts), done, old(starts), acts, starts);
        BrokeOffEarlier(old(acts), done, acts);
      } else {
        ghost var done := acts;
        hide Seen;
        ok := OpenIdentify();
        WentOn(old(acts), old(starts), done, old(starts), acts, starts);
        BrokeOffEarlier(old(acts), done, acts);
        if ok { WelcomedEither(); }
      }
    }

    ghost method StartsReading()
      requires Tied() && open
      modifies `acts
      ensures Tied() && acts == old(acts) + [Reads] && Sight() == old(Sight()).(up := false)
              && Went(old(acts), starts, acts, starts)
    {
      hide Lawful, Seen;
      Do(Reads);
    }

    /** The next control that was heard, or the next frame. */
    method ReadOne(controls: nat) returns (ok: bool)
      requires Valid() && open && (control.Some? ==> 1 <= controls <= Sight().obeyed + 1)
      modifies this
      ensures Valid() && Went(old(acts), old(starts), acts, starts)
      ensures if ok then open && (old(Sight().link) == On ==> Sight().link == On) else BrokeOff(old(acts), acts)
      ensures ok && old(control).Some? ==> controls <= CONTROLS && controls <= Sight().obeyed
      ensures old(now) <= now
    {
      hide Tied, Timed, Lawful, Seen, Went, BrokeOff, May;
      if control.Some? {
        if controls > CONTROLS {
          Refuse();
          return false;
        }
        ok := ApplyControl();
      } else {
        ok := Receive();
      }
    }

    ghost method StopsReading()
      requires Tied()
      modifies `acts
      ensures Tied() && acts == old(acts) + [TimesUp] && Sight() == old(Sight()).(up := true)
      ensures Went(old(acts), starts, acts, starts)
    {
      hide Tied;
      TimeRunsOut();
    }

    /** Frames until the time is up; controls are obeyed, at most twice. */
    method ReadLive() returns (ok: bool)
      requires Valid() && open
      modifies this
      ensures Valid() && Went(old(acts), old(starts), acts, starts) && old(acts) + [Reads] <= acts
      ensures ok && open && old(Sight().link) == On ==> Sight().link == On
      ensures if ok then !open || acts[|acts| - 1] == TimesUp else BrokeOff(old(acts), acts)
      ensures old(now) <= now
    {
      var frames: nat :| true;
      var controls := 0;
      StartsReading();
      hide Tied, Timed, Lawful, Seen, Went, BrokeOff, Welcomed, May;
      for f := 0 to frames
        invariant Valid() && Went(old(acts), old(starts), acts, starts) && old(acts) + [Reads] <= acts
        invariant open && old(Sight().link) == On ==> Sight().link == On
        invariant controls <= Sight().obeyed && old(now) <= now
      {
        if !open { return true; }
        if control.Some? { controls := controls + 1; }
        ghost var done, left := acts, starts;
        ok := ReadOne(controls);
        WentOn(old(acts), old(starts), done, left, acts, starts);
        BrokeOffEarlier(old(acts), done, acts);
        if !ok { return; }
      }
      ghost var done := acts;
      StopsReading();
      WentOn(old(acts), old(starts), done, starts, acts, starts);
      return true;
    }

    /** A new budget; a connection whose heartbeat has lapsed is given up. */
    method Prepare()
      requires Valid()
      modifies `attempts, `open, `acts
      ensures Valid() && attempts == 0 && Sight().tries == 0 && Sight().cause == None && old(acts) + [Begins] <= acts
      ensures open ==> old(open) && Sight().link == old(Sight().link)
    {
      hide Timed;
      Begin();
      var lapsed: bool := *;
      if lapsed { Close(); }
    }

    /**
     A fetch begins with a new budget. Connected: there was a connection, or one was made and welcomed.
     Read: it was read to the end of the time. An error of the connection may be held back while what
     there is is read.
     */
    method Fetch() returns (connected: bool, read: bool)
      requires Valid()
      modifies this
      ensures Valid() && old(acts) + [Begins] <= acts
      ensures old(starts) <= starts && |starts| <= |old(starts)| + CONNECT_ATTEMPTS
      ensures !connected || !read ==> BrokeOff(old(acts), acts)
      ensures read ==> HasRead(old(acts), acts)
      ensures connected && read && open && (!old(open) || old(Sight().link) == On) ==> Sight().link == On
    {
      Prepare();
      ghost var begun, link := acts, Sight().link;
      connected, read := open, false;
      if !open {
        connected := EnsureConnection();
        BrokeOffEarlier(old(acts), begun, acts);
      }
      ghost var done, left := acts, starts;
      NothingWent(acts, starts);
      var raised: bool := *;
      if open && (connected || !raised) {
        read := ReadLive();
        ReadsLater(old(acts), done, acts);
        BrokeOffEarlier(old(acts), done, acts);
      }
    }

    method Redial()
      requires Tied()
      modifies `attempts, `open, `dispatch, `acts
      ensures Tied() && open && old(acts) < acts
    {
      hide Tied;
      Close();
      Begin();
      var ok := Dial(true);
    }

    /**
     One more Identify, where the connection breaks right after the last frame and no session is
     stored: the steps of the next fetch.
     */
    method Next(start: Start)
      requires Valid() && 0.0 <= start.taken <= start.sent
      requires if starts == [] then now == 0.0
               else now == starts[|starts| - 1].sent && Follows(starts[|starts| - 1], start)
      modifies this
      ensures Valid() && starts == old(starts) + [start] && now == start.sent && open && old(acts) < acts
    {
      hide Start.Holds, Tied;
      Redial();
      Pass(start.taken - now);
      HoldSlot(start.taken, start.concurrency);
      Depart(start.taken, start.concurrency, start.Delay());
    }

    /** Whatever Spaced allows after the frame that just left does happen. */
    method Continue(more: seq<Start>)
      requires Valid() && Spaced(starts + more)
      requires now == if starts == [] then 0.0 else starts[|starts| - 1].sent
      modifies this
      ensures Valid() && starts == old(starts) + more
    {
      ghost var n, all := |starts|, starts + more;
      hide *;
      for i := 0 to |more|
        invariant Valid() && Spaced(all) && n + |more| == |all|
        invariant starts == all[..n + i] && now == if n + i == 0 then 0.0 else all[n + i - 1].sent
      {
        assert all[n + i] == more[i];
        NextFollows(all, n + i);
        Next(more[i]);
        assert all[..n + i + 1] == all[..n + i] + [all[n + i]];
      }
      assert all[..n + |more|] == all;
    }
  }

  lemma NextFollows(all: seq<Start>, k: nat)
    requires Spaced(all) && k < |all|
    ensures 0.0 <= all[k].taken <= all[k].sent && (k > 0 ==> Follows(all[k - 1], all[k]))
  {
    if k > 0 {
      assert Follows(all[k - 1], all[(k - 1) + 1]);
      NextFollows(all, k - 1);
    }
  }

  /** Any number of fetches: every two Identifies are apart by what the earlier one holds the window for. */
  method Run(g: Gateway, fetches: nat)
    requires g.Valid()
    modifies g
    ensures g.Valid() && old(g.acts) <= g.acts && old(g.starts) <= g.starts
            && |g.starts| <= |old(g.starts)| + fetches * CONNECT_ATTEMPTS
  {
    for f := 0 to fetches
      invariant g.Valid() && old(g.acts) <= g.acts && old(g.starts) <= g.starts
                && |g.starts| <= |old(g.starts)| + f * CONNECT_ATTEMPTS
    {
      var connected, read := g.Fetch();
    }
  }

  lemma {:induction false} TakenInOrder(starts: seq<Start>, i: nat, j: nat)
    requires Spaced(starts) && i < j < |starts|
    ensures starts[i].WindowEnd() <= starts[j].taken <= starts[j].sent
    decreases j
  {
    assert Follows(starts[j - 1], starts[j]) by { assert j == (j - 1) + 1; }
    if i + 1 < j {
      TakenInOrder(starts, i, j - 1);
    }
  }

  /** Later frames keep the distance that frame i asks for. */
  ghost predicate Apart(starts: seq<Start>, i: nat)
    requires i < |starts|
  {
    forall j :: i < j < |starts| ==> starts[j].sent - starts[i].sent >= starts[i].Holds()
  }

  /** The earliest Identify that can follow. */
  function Soonest(start: Start): Start {
    var at := if start.sent < start.WindowEnd() then start.WindowEnd() else start.sent;
    Start(at, at, start.concurrency)
  }

  /**
   What is known when a frame leaves. The spacing is counted from slots, not from frames: whatever
   follows, and however many, keeps its distance from the frame exactly if the frame left the moment
   its slot was taken. All that follows is what Spaced allows, no more and no less
   (Gateway.Valid, Gateway.Continue).
   */
  lemma SpacingKeptIff(starts: seq<Start>)
    requires Spaced(starts) && starts != []
    ensures starts[|starts| - 1].Delay() == 0.0
            <==> forall all: seq<Start> :: starts <= all && Spaced(all) ==> Apart(all, |starts| - 1)
  {
    var i := |starts| - 1;
    if starts[i].Delay() == 0.0 {
      forall all: seq<Start> | starts <= all && Spaced(all) ensures Apart(all, i) {
        forall j | i < j < |all| ensures all[j].sent - all[i].sent >= all[i].Holds() {
          TakenInOrder(all, i, j);
        }
      }
    } else {
      var all := starts + [Soonest(starts[i])];
      FrameAfterSlot(starts, i);
      assert Spaced(all) by {
        forall k | 0 <= k < |all| - 1 ensures Follows(all[k], all[k + 1]) {
          if k < i { assert Follows(starts[k], starts[k + 1]); }
        }
      }
      assert all[i + 1].sent - all[i].sent < all[i].Holds();
      assert starts <= all && !Apart(all, i);
    }
  }

  lemma FrameAfterSlot(starts: seq<Start>, i: nat)
    requires Spaced(starts) && i < |starts|
    ensures starts[i].Delay() >= 0.0
  {
    if i > 0 {
      assert Follows(starts[i - 1], starts[(i - 1) + 1]);
    }
  }

  /**
   The frames of two fetches, one second apart under a spacing of five: the first leaves four seconds
   after its slot, and the second the moment the window ends.
   */
  method FramesTooClose() returns (g: Gateway)
    ensures fresh(g) && g.Valid() && |g.starts| == 2
    ensures g.starts[0].Holds() == 5.0 && g.starts[1].sent - g.starts[0].sent == 1.0
  {
    var late, prompt := Start(0.0, 4.0, 1), Start(5.0, 5.0, 1);
    assert Follows(late, prompt);
    g := new Gateway(false, false, false);
    g.Continue([late, prompt]);
  }

  // ---- what the log shows can happen ----

  /** A connection is opened, greets us, and this is sent. */
  method AskWith(g: Gateway, action: Action)
    requires g.Tied() && !g.open && g.attempts < CONNECT_ATTEMPTS
    requires action == Resume ==> g.Sight().cause == Some(Resume) && (g.Sight().ended ==> g.Sight().left)
    requires action == Identify ==> g.MayIdentify()
    modifies g`attempts, g`open, g`dispatch, g`acts
    ensures g.Tied() && g.open && g.dispatch == None && g.attempts == old(g.attempts) + 1
    ensures g.acts == old(g.acts) + [Tries, Opened, Greeted, Sent(action)]
    ensures g.Sight() == old(g.Sight()).(link := Asked(action), cause := None, checked := None, up := false,
                                         tries := g.Sight().tries)
  {
    hide Seen, Lawful;
    assert g.session == g.Sight().known;
    hide Gateway.Tied;
    var ok := g.Dial(true);
    g.Meets();
    g.Send(action);
  }

  /** And it is welcomed. */
  method OpenedWith(g: Gateway, action: Action, kind: Dispatch)
    requires g.Tied() && !g.open && g.attempts < CONNECT_ATTEMPTS
    requires action == Resume ==> g.Sight().cause == Some(Resume) && (g.Sight().ended ==> g.Sight().left)
    requires action == Identify ==> kind == Ready && g.MayIdentify()
    modifies g`attempts, g`open, g`dispatch, g`session, g`stored, g`control, g`acts
    ensures g.Tied() && g.open && g.Sight().link == On && g.dispatch == Some(kind) && g.stored == old(g.stored)
    ensures g.control == old(g.control)
    ensures g.session == (old(g.session) || kind == Ready) && g.attempts == old(g.attempts) + 1
    ensures kind == Ready ==> !g.Sight().ended && !g.Sight().left
    ensures kind != Ready ==> g.Sight().ended == old(g.Sight().ended) && g.Sight().left == old(g.Sight().left)
  {
    hide Seen, Lawful;
    AskWith(g, action);
    g.Hear(Welcome(kind), false);
  }

  /** A first connection was welcomed. */
  method Connected(keeps: bool) returns (g: Gateway)
    ensures fresh(g) && g.Tied() && g.open && g.session && !g.stored && g.control == None && g.keeps == keeps
    ensures !g.Sight().ended && g.Sight().link == On
  {
    g := new Gateway(false, keeps, false);
    hide Seen, Lawful;
    g.Begin();
    g.Check(false);
    OpenedWith(g, Identify, Ready);
  }

  /** The platform has ended a session whose file could not be erased, and the connection has broken. */
  method EndedAndLost() returns (g: Gateway)
    ensures fresh(g) && g.Tied() && !g.open && g.stored && g.Sight().ended && g.Sight().left
  {
    g := Connected(true);
    hide Seen, Lawful;
    var ok := g.Touch(true);
    g.Hear(Invalid(false), true);
    g.Close();
  }

  /** The next fetch resumes it. */
  method EndedIsResumed() returns (g: Gateway)
    ensures fresh(g) && g.Tied()
    ensures exists i :: 0 <= i < |g.acts| && g.acts[i] == Sent(Resume) && Seen(g.acts[..i]).ended
  {
    g := EndedAndLost();
    hide Seen, Lawful, Gateway.Tied;
    g.Begin();
    g.Check(true);
    g.Load();
    var ok := g.Dial(true);
    g.Meets();
    ghost var before := g.acts;
    g.Send(Resume);
    assert g.acts[..|before|] == before && g.acts[|before|] == Sent(Resume);
  }

  /** Identify was sent on a new connection, and the platform asks for another one. */
  method AskedAgain() returns (g: Gateway)
    ensures fresh(g) && g.Tied() && g.open && g.attempts == 1 && g.control == Some(Resume)
    ensures g.session && !g.stored && !g.Sight().ended
  {
    g := Connected(false);
    hide Seen, Lawful;
    g.Close();
    g.Begin();
    g.Check(false);
    AskWith(g, Identify);
    g.Hear(Reconnect, false);
  }

  /**
   The session in memory is resumed on it: READY, which is still waited for, does not come, and the
   connection that was welcomed is given up.
   */
  method ResumedIsGivenUp() returns (g: Gateway)
    ensures fresh(g) && g.Tied() && |g.acts| >= 3 && g.acts[|g.acts| - 3..] == [TimesUp, Closed, Broke(Silent)]
    ensures Seen(g.acts[..|g.acts| - 3]).link == On
  {
    g := AskedAgain();
    hide Seen, Lawful, Gateway.Tied;
    var action := g.TakeControl();
    g.Check(false);
    OpenedWith(g, Resume, Resumed);
    ghost var before := g.acts;
    g.GiveUp({Ready});
    assert g.acts[..|g.acts| - 3] == before;
  }
}
