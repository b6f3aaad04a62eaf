/**
 * The reactor of `src/executor.rs`: the `Poller`'s subscription table
 * (descriptor -> interest flags), the waker table keyed by `2*fd` (read) and
 * `2*fd+1` (write), and the event dispatch of `Reactor::wait`.
 *
 * The pair of tables is also given as a value, `Table`, with one function per
 * operation. The `Reactor` methods are proved to change the object exactly as
 * those functions say, and the lemmas about several operations in a row are
 * stated on the functions.
 */
module Reactors {
  import opened Io
  import opened Tasks

  /** `RawFd` is an `i32`; only non-negative descriptors are modelled. */
  const FD_LIMIT: int := 0x8000_0000
  /** The waker table is keyed by `u64`. */
  const KEY_LIMIT: int := 0x1_0000_0000_0000_0000

  type Fd = x: int | 0 <= x < FD_LIMIT
  type Key = k: int | 0 <= k < KEY_LIMIT

  datatype Interest = Read | Write | All

  /** `Subscription::IO`: what the readiness source is asked to watch for one descriptor. */
  datatype Subscription = IO(userdata: Key, fd: Fd, readEvent: bool, writeEvent: bool)

  /** The event kinds the readiness source reports. */
  datatype EventType = ReadReady | WriteReady | Timeout | ErrorEvent(error: IoError)

  /** One readiness event; `userdata` is the token of the subscription it answers. */
  datatype Event = Event(userdata: Fd, eventType: EventType)

  /** The error `wait` reports for a timeout event or an event that finds no waker. */
  const UnsupportedError: IoError := IoError(Unsupported, "Timeout is not suuported")

  // ---------------------------------------------------------------------------
  // Key encoding

  /** `fd as u64 * 2`: the slot of the read-direction waker; no `u64` overflow. */
  function ReadKey(fd: Fd): (k: Key)
    ensures k % 2 == 0 && k / 2 == fd
  {
    fd * 2
  }

  /** `fd as u64 * 2 + 1`: the slot of the write-direction waker; no `u64` overflow. */
  function WriteKey(fd: Fd): (k: Key)
    ensures k % 2 == 1 && k / 2 == fd
  {
    fd * 2 + 1
  }

  /** The two slots of one descriptor differ, and no two descriptors share a slot. */
  lemma KeysInjective(fd: Fd, gd: Fd)
    ensures ReadKey(fd) != WriteKey(gd)
    ensures ReadKey(fd) == ReadKey(gd) <==> fd == gd
    ensures WriteKey(fd) == WriteKey(gd) <==> fd == gd
  {
  }

  /** The waker slots that `modify(fd, interest, _)` writes. */
  function SlotsOf(fd: Fd, interest: Interest): (ks: set<Key>)
    ensures ReadKey(fd) in ks <==> interest != Write
    ensures WriteKey(fd) in ks <==> interest != Read
    ensures forall k :: k in ks ==> k / 2 == fd
  {
    match interest
    case Read => {ReadKey(fd)}
    case Write => {WriteKey(fd)}
    case All => {ReadKey(fd), WriteKey(fd)}
  }

  /** The subscription `Poller::add` / `Poller::modify` store for `fd` and `interest`. */
  function SubscriptionFor(fd: Fd, interest: Interest): (s: Subscription)
    ensures s.fd == fd && s.userdata == fd
    ensures s.readEvent <==> interest != Write
    ensures s.writeEvent <==> interest != Read
  {
    match interest
    case Read => IO(fd, fd, true, false)
    case Write => IO(fd, fd, false, true)
    case All => IO(fd, fd, true, true)
  }

  // ---------------------------------------------------------------------------
  // The registration tables as a value, and what each operation does to them

  datatype Table = Table(subs: map<Fd, Subscription>, wakers: map<Key, Waker>)

  /** `Reactor::add`: full interest for `fd`, replacing any entry; wakers untouched. */
  function Added(t: Table, fd: Fd): (t': Table)
    ensures fd in t'.subs && t'.subs[fd] == IO(fd, fd, true, true)
    ensures forall g :: g != fd ==> (g in t'.subs <==> g in t.subs)
    ensures forall g :: g != fd && g in t.subs ==> t'.subs[g] == t.subs[g]
    ensures t'.wakers == t.wakers
  {
    Table(t.subs[fd := SubscriptionFor(fd, All)], t.wakers)
  }

  /** `Reactor::delete`: drop the subscription of `fd` and both of its waker slots. */
  function Deleted(t: Table, fd: Fd): (t': Table)
    ensures fd !in t'.subs
    ensures ReadKey(fd) !in t'.wakers && WriteKey(fd) !in t'.wakers
    ensures forall g :: g != fd ==> (g in t'.subs <==> g in t.subs)
    ensures forall g :: g != fd && g in t.subs ==> t'.subs[g] == t.subs[g]
    ensures forall k :: k / 2 != fd ==> (k in t'.wakers <==> k in t.wakers)
    ensures forall k :: k / 2 != fd && k in t.wakers ==> t'.wakers[k] == t.wakers[k]
  {
    Table(t.subs - {fd}, t.wakers - {ReadKey(fd)} - {WriteKey(fd)})
  }

  /**
   * `Reactor::modify`: store `w` in the slot(s) of `interest`, overwriting what
   * was there, and narrow the subscription of `fd` -- but only if `fd` already
   * has one (`entry(fd).and_modify`).
   */
  function Modified(t: Table, fd: Fd, interest: Interest, w: Waker): (t': Table)
    ensures forall k :: k in SlotsOf(fd, interest) ==> k in t'.wakers && t'.wakers[k] == w
    ensures forall k :: k !in SlotsOf(fd, interest) ==> (k in t'.wakers <==> k in t.wakers)
    ensures forall k :: k !in SlotsOf(fd, interest) && k in t.wakers ==> t'.wakers[k] == t.wakers[k]
    ensures fd in t'.subs <==> fd in t.subs
    ensures fd in t.subs ==> t'.subs[fd] == SubscriptionFor(fd, interest)
    ensures fd !in t.subs ==> t'.subs == t.subs
    ensures forall g :: g != fd ==> (g in t'.subs <==> g in t.subs)
    ensures forall g :: g != fd && g in t.subs ==> t'.subs[g] == t.subs[g]
  {
    var wakers := match interest
      case Read => t.wakers[ReadKey(fd) := w]
      case Write => t.wakers[WriteKey(fd) := w]
      case All => t.wakers[ReadKey(fd) := w][WriteKey(fd) := w];
    var subs := if fd in t.subs then t.subs[fd := SubscriptionFor(fd, interest)] else t.subs;
    Table(subs, wakers)
  }

  // ---------------------------------------------------------------------------
  // Event dispatch: what `Reactor::wait` does with the events of one poll

  /** The outcome of dispatching events: the result, the waker table left, the wakers invoked. */
  datatype Dispatched = Dispatched(result: Result<()>, wakers: map<Key, Waker>, woken: seq<Waker>)

  /** `d` preceded by the wakers `ws` invoked earlier. */
  function Prepend(ws: seq<Waker>, d: Dispatched): (d': Dispatched)
    ensures d'.result == d.result && d'.wakers == d.wakers && |d'.woken| == |ws| + |d.woken|
  {
    Dispatched(d.result, d.wakers, ws + d.woken)
  }

  /** The slot an event is meant for (its direction's key), if it is a read or write event. */
  function SlotOfEvent(ev: Event): (k: Option<Key>)
    ensures k.Some? <==> ev.eventType.ReadReady? || ev.eventType.WriteReady?
    ensures ev.eventType.ReadReady? ==> k == Some(ReadKey(ev.userdata))
    ensures ev.eventType.WriteReady? ==> k == Some(WriteKey(ev.userdata))
  {
    match ev.eventType
    case ReadReady => Some(ReadKey(ev.userdata))
    case WriteReady => Some(WriteKey(ev.userdata))
    case _ => None
  }

  /** What one event does: hand out the waker of its slot, or stop `wait` with an error. */
  datatype Taken = Took(waker: Waker, rest: map<Key, Waker>) | Abort(error: IoError)

  /**
   * One event: a read or write event whose slot holds a waker takes it out; an
   * error event stops with its error; a timeout event, or an empty slot, stops
   * with `UnsupportedError`.
   */
  function Take(m: map<Key, Waker>, ev: Event): (t: Taken)
    ensures t.Took? <==> SlotOfEvent(ev).Some? && SlotOfEvent(ev).value in m
    ensures t.Took? ==> t.waker == m[SlotOfEvent(ev).value] && t.rest == m - {SlotOfEvent(ev).value}
    ensures t.Abort? && ev.eventType.ErrorEvent? ==> t.error == ev.eventType.error
    ensures t.Abort? && !ev.eventType.ErrorEvent? ==> t.error == UnsupportedError
  {
    match ev.eventType
    case ErrorEvent(e) => Abort(e)
    case Timeout => Abort(UnsupportedError)
    case _ =>
      var k := SlotOfEvent(ev).value;
      if k in m then Took(m[k], m - {k}) else Abort(UnsupportedError)
  }

  /**
   * The events are handled in order, each by `Take`, until one stops the
   * dispatch. At most one waker per event is invoked, each of them taken from
   * the table, and the table left is part of the one given.
   */
  function Dispatch(m: map<Key, Waker>, events: seq<Event>): (d: Dispatched)
    ensures |d.woken| <= |events|
    ensures forall i :: 0 <= i < |d.woken| ==> d.woken[i] in m.Values
    ensures d.wakers.Keys <= m.Keys
    decreases |events|
  {
    if events == [] then Dispatched(Ok(()), m, [])
    else
      match Take(m, events[0])
      case Abort(e) => Dispatched(Err(e), m, [])
      case Took(w, rest) => Prepend([w], Dispatch(rest, events[1..]))
  }

  lemma PrependPrepend(ws: seq<Waker>, vs: seq<Waker>, d: Dispatched)
    ensures Prepend(ws, Prepend(vs, d)) == Prepend(ws + vs, d)
  {
    assert ws + (vs + d.woken) == (ws + vs) + d.woken;
  }

  /** Dispatch from position `i` on is one `Take` followed by dispatch from `i + 1` on. */
  lemma DispatchAt(m: map<Key, Waker>, events: seq<Event>, i: nat)
    requires i < |events|
    ensures var t := Take(m, events[i]);
      Dispatch(m, events[i..]) ==
        if t.Abort? then Dispatched(Err(t.error), m, []) else Prepend([t.waker], Dispatch(t.rest, events[i + 1..]))
  {
    assert events[i..][0] == events[i] && events[i..][1..] == events[i + 1..];
  }

  /**
   * Every waker is invoked at most once: the table left is part of the table
   * given, and each invoked waker accounts for exactly one slot that is gone.
   */
  lemma {:induction false} DispatchConsumes(m: map<Key, Waker>, events: seq<Event>)
    ensures var d := Dispatch(m, events);
      && (forall k :: k in d.wakers ==> k in m && d.wakers[k] == m[k])
      && |m| == |d.wakers| + |d.woken|
    decreases |events|
  {
    if events != [] && Take(m, events[0]).Took? {
      var k := SlotOfEvent(events[0]).value;
      DispatchConsumes(m - {k}, events[1..]);
      assert |m - {k}| == |m| - 1;
    }
  }

  /**
   * `wait` succeeds only when every event is a read or write event that finds
   * a waker; then every event invoked exactly one waker, in order.
   */
  lemma {:induction false} DispatchOkWakesEveryEvent(m: map<Key, Waker>, events: seq<Event>)
    requires Dispatch(m, events).result.Ok?
    ensures |Dispatch(m, events).woken| == |events|
    ensures forall i :: 0 <= i < |events| ==> SlotOfEvent(events[i]).Some?
    decreases |events|
  {
    if events != [] {
      var k := SlotOfEvent(events[0]).value;
      DispatchOkWakesEveryEvent(m - {k}, events[1..]);
      forall i | 0 <= i < |events| ensures SlotOfEvent(events[i]).Some? {
        if i > 0 {
          assert events[i] == events[1..][i - 1];
        }
      }
    }
  }

  /** The slots the read and write events name. */
  ghost function EventSlots(events: seq<Event>): set<Key>
    decreases |events|
  {
    if events == [] then {}
    else (if SlotOfEvent(events[0]).Some? then {SlotOfEvent(events[0]).value} else {}) + EventSlots(events[1..])
  }

  /**
   * The converse: when every event is a read or write event for a distinct slot
   * that holds a waker, `wait` succeeds, invokes the waker of each event's slot
   * in the order of the events, and leaves exactly the other slots.
   */
  lemma {:induction false} DispatchOkWhenAllServed(m: map<Key, Waker>, events: seq<Event>)
    requires forall i :: 0 <= i < |events| ==> SlotOfEvent(events[i]).Some? && SlotOfEvent(events[i]).value in m
    requires forall i, j :: 0 <= i < j < |events| ==> SlotOfEvent(events[i]) != SlotOfEvent(events[j])
    ensures var d := Dispatch(m, events);
      && d.result == Ok(())
      && |d.woken| == |events|
      && (forall i :: 0 <= i < |events| ==> d.woken[i] == m[SlotOfEvent(events[i]).value])
      && d.wakers == m - EventSlots(events)
    decreases |events|
  {
    if events != [] {
      var k := SlotOfEvent(events[0]).value;
      var tail := events[1..];
      forall i | 0 <= i < |tail| ensures SlotOfEvent(tail[i]).Some? && SlotOfEvent(tail[i]).value in m - {k} {
        assert tail[i] == events[i + 1];
      }
      forall i, j | 0 <= i < j < |tail| ensures SlotOfEvent(tail[i]) != SlotOfEvent(tail[j]) {
        assert tail[i] == events[i + 1] && tail[j] == events[j + 1];
      }
      DispatchOkWhenAllServed(m - {k}, tail);
      var d := Dispatch(m, events);
      forall i | 0 <= i < |events| ensures d.woken[i] == m[SlotOfEvent(events[i]).value] {
        if i > 0 {
          assert events[i] == tail[i - 1];
        }
      }
      assert m - {k} - EventSlots(tail) == m - EventSlots(events);
    }
  }

  /**
   * Dispatching `p + q` is dispatching `p` and, only if that succeeded,
   * dispatching `q` on the table `p` left: after a failure the later events are
   * never looked at.
   */
  lemma {:induction false} DispatchSplit(m: map<Key, Waker>, p: seq<Event>, q: seq<Event>)
    ensures var d := Dispatch(m, p);
      Dispatch(m, p + q) == if d.result.Err? then d else Prepend(d.woken, Dispatch(d.wakers, q))
    decreases |p|
  {
    if p == [] {
      assert p + q == q;
    } else {
      assert (p + q)[0] == p[0];
      assert (p + q)[1..] == p[1..] + q;
      if Take(m, p[0]).Took? {
        DispatchSplit(Take(m, p[0]).rest, p[1..], q);
      }
    }
  }

  /**
   * An error event returns that error: the wakers invoked before it stay invoked,
   * the events after it are left unprocessed.
   */
  lemma ErrorEventAborts(m: map<Key, Waker>, p: seq<Event>, fd: Fd, e: IoError, q: seq<Event>)
    requires Dispatch(m, p).result.Ok?
    ensures var d := Dispatch(m, p);
      Dispatch(m, p + [Event(fd, ErrorEvent(e))] + q) == Dispatched(Err(e), d.wakers, d.woken)
  {
    var d := Dispatch(m, p);
    DispatchSplit(m, p, [Event(fd, ErrorEvent(e))] + q);
    assert p + [Event(fd, ErrorEvent(e))] + q == p + ([Event(fd, ErrorEvent(e))] + q);
    assert d.woken + [] == d.woken;
  }

  /**
   * A timeout event, or a read/write event whose slot holds no waker, returns
   * `UnsupportedError` at once and leaves the later events unprocessed.
   */
  lemma UnservedEventAborts(m: map<Key, Waker>, p: seq<Event>, ev: Event, q: seq<Event>)
    requires Dispatch(m, p).result.Ok?
    requires !ev.eventType.ErrorEvent?
    requires SlotOfEvent(ev).Some? ==> SlotOfEvent(ev).value !in Dispatch(m, p).wakers
    ensures var d := Dispatch(m, p);
      Dispatch(m, p + [ev] + q) == Dispatched(Err(UnsupportedError), d.wakers, d.woken)
  {
    var d := Dispatch(m, p);
    DispatchSplit(m, p, [ev] + q);
    assert p + [ev] + q == p + ([ev] + q);
    assert d.woken + [] == d.woken;
  }

  /**
   * The waker table's read and write slots are independent: with both slots of
   * `fd` filled, a read and a write event wake the read waker and then the write
   * waker, and empty both slots. The subscription is not so: `Modified` narrows
   * it to the last interest registered, so a read waker stored before a write
   * registration now waits on a descriptor subscribed for writing only.
   */
  lemma DirectionsAreIndependent(m: map<Key, Waker>, fd: Fd)
    requires ReadKey(fd) in m && WriteKey(fd) in m
    ensures var d := Dispatch(m, [Event(fd, ReadReady), Event(fd, WriteReady)]);
      && d.result == Ok(())
      && d.woken == [m[ReadKey(fd)], m[WriteKey(fd)]]
      && d.wakers == m - {ReadKey(fd), WriteKey(fd)}
  {
    var evs := [Event(fd, ReadReady), Event(fd, WriteReady)];
    KeysInjective(fd, fd);
    var m1 := m - {ReadKey(fd)};
    assert Take(m, evs[0]) == Took(m[ReadKey(fd)], m1);
    assert WriteKey(fd) in m1 && m1[WriteKey(fd)] == m[WriteKey(fd)];
    assert Take(m1, evs[1]) == Took(m[WriteKey(fd)], m1 - {WriteKey(fd)});
    assert evs[1..] == [Event(fd, WriteReady)];
    assert evs[1..][1..] == [];
    assert Dispatch(m1, evs[1..]) == Dispatched(Ok(()), m1 - {WriteKey(fd)}, [m[WriteKey(fd)]]);
    assert m1 - {WriteKey(fd)} == m - {ReadKey(fd), WriteKey(fd)};
  }

  /**
   * Registering twice for the same slot keeps only the later waker, and the next
   * event for that slot wakes that waker alone.
   */
  lemma LaterRegistrationWins(t: Table, fd: Fd, interest: Interest, w1: Waker, w2: Waker, ev: Event)
    requires ev.userdata == fd && SlotOfEvent(ev).Some? && SlotOfEvent(ev).value in SlotsOf(fd, interest)
    ensures Dispatch(Modified(Modified(t, fd, interest, w1), fd, interest, w2).wakers, [ev]).woken == [w2]
  {
    var k := SlotOfEvent(ev).value;
    var m := Modified(Modified(t, fd, interest, w1), fd, interest, w2).wakers;
    assert k in m && m[k] == w2;
    assert [ev][1..] == [];
  }

  /** After `delete(fd)` a read or write event for `fd` finds no waker and fails. */
  lemma EventAfterDeleteFails(t: Table, fd: Fd, ev: Event, rest: seq<Event>)
    requires ev.userdata == fd && SlotOfEvent(ev).Some?
    ensures Dispatch(Deleted(t, fd).wakers, [ev] + rest) == Dispatched(Err(UnsupportedError), Deleted(t, fd).wakers, [])
  {
    assert ([ev] + rest)[0] == ev;
  }

  // ---------------------------------------------------------------------------
  // Every stored waker belongs to a subscribed descriptor

  /**
   * The table is coherent when each stored waker belongs to a descriptor the
   * readiness source is asked about; a waker of an unsubscribed descriptor can
   * never be invoked.
   */
  ghost predicate WakersSubscribed(t: Table) {
    forall k :: k in t.wakers ==> k / 2 in t.subs
  }

  lemma AddedKeepsWakersSubscribed(t: Table, fd: Fd)
    requires WakersSubscribed(t)
    ensures WakersSubscribed(Added(t, fd)) && fd in Added(t, fd).subs
  {
  }

  lemma DeletedKeepsWakersSubscribed(t: Table, fd: Fd)
    requires WakersSubscribed(t)
    ensures WakersSubscribed(Deleted(t, fd))
  {
  }

  /** `modify` keeps the table coherent exactly when `fd` is subscribed. */
  lemma ModifiedKeepsWakersSubscribed(t: Table, fd: Fd, interest: Interest, w: Waker)
    requires WakersSubscribed(t)
    ensures WakersSubscribed(Modified(t, fd, interest, w)) <==> fd in t.subs
  {
    var t' := Modified(t, fd, interest, w);
    if fd !in t.subs {
      var k := if interest == Write then WriteKey(fd) else ReadKey(fd);
      assert k in t'.wakers && k / 2 !in t'.subs;
    }
  }

  lemma DispatchKeepsWakersSubscribed(t: Table, events: seq<Event>)
    requires WakersSubscribed(t)
    ensures WakersSubscribed(Table(t.subs, Dispatch(t.wakers, events).wakers))
  {
    DispatchConsumes(t.wakers, events);
  }

  /**
   * A waker stored for a descriptor that is not subscribed is never invoked by
   * events about subscribed descriptors (the only ones a readiness source reports):
   * it stays in its slot whatever those events are.
   */
  lemma {:induction false} UnsubscribedWakerNeverFires(t: Table, k: Key, events: seq<Event>)
    requires k in t.wakers && k / 2 !in t.subs
    requires forall i :: 0 <= i < |events| ==> events[i].userdata in t.subs
    ensures k in Dispatch(t.wakers, events).wakers
    ensures Dispatch(t.wakers, events).wakers[k] == t.wakers[k]
    decreases |events|
  {
    if events != [] && Take(t.wakers, events[0]).Took? {
      var j := SlotOfEvent(events[0]).value;
      assert j / 2 == events[0].userdata;
      forall i | 0 <= i < |events[1..]| ensures events[1..][i].userdata in t.subs {
        assert events[1..][i] == events[i + 1];
      }
      UnsubscribedWakerNeverFires(Table(t.subs, t.wakers - {j}), k, events[1..]);
    }
  }

  // ---------------------------------------------------------------------------
  // The objects

  /** `Poller`: the subscriptions handed to the readiness source on every `wait`. */
  class Poller {
    var subs: map<Fd, Subscription>

    constructor ()
      ensures subs == map[]
    {
      subs := map[];
    }

    /** `Poller::add`: full interest, `userdata = fd`, replacing any previous entry. */
    method Add(fd: Fd)
      modifies this
      ensures subs == old(subs)[fd := SubscriptionFor(fd, All)]
    {
      subs := subs[fd := SubscriptionFor(fd, All)];
    }

    /** `Poller::delete`. */
    method Delete(fd: Fd)
      modifies this
      ensures subs == old(subs) - {fd}
    {
      subs := subs - {fd};
    }

    /** `Poller::modify`: rewrites an existing entry only; a no-op for an unknown `fd`. */
    method Modify(fd: Fd, interest: Interest)
      modifies this
      ensures fd in old(subs) ==> subs == old(subs)[fd := SubscriptionFor(fd, interest)]
      ensures fd !in old(subs) ==> subs == old(subs)
    {
      if fd in subs {
        subs := subs[fd := SubscriptionFor(fd, interest)];
      }
    }
  }

  /** `Reactor`: the poller plus the waker table. */
  class Reactor {
    const poll: Poller
    var wakersMap: map<Key, Waker>

    /** Both tables as one value. */
    function Snapshot(): Table
      reads this, poll
    {
      Table(poll.subs, wakersMap)
    }

    /** `Reactor::new`: no subscription, no waker. */
    constructor ()
      ensures fresh(poll) && Snapshot() == Table(map[], map[])
    {
      poll := new Poller();
      wakersMap := map[];
    }

    /** `Reactor::add` (infallible: it returns `()`). */
    method Add(fd: Fd)
      modifies this, poll
      ensures Snapshot() == Added(old(Snapshot()), fd)
    {
      poll.Add(fd);
    }

    /** `Reactor::delete`: both waker slots of `fd`, then its subscription. */
    method Delete(fd: Fd)
      modifies this, poll
      ensures Snapshot() == Deleted(old(Snapshot()), fd)
    {
      wakersMap := wakersMap - {ReadKey(fd)};
      wakersMap := wakersMap - {WriteKey(fd)};
      poll.Delete(fd);
    }

    /** `Reactor::modify`: store the context's waker, then narrow the subscription. */
    method Modify(fd: Fd, interest: Interest, w: Waker)
      modifies this, poll
      ensures Snapshot() == Modified(old(Snapshot()), fd, interest, w)
    {
      match interest {
        case Read =>
          wakersMap := wakersMap[ReadKey(fd) := w];
        case Write =>
          wakersMap := wakersMap[WriteKey(fd) := w];
        case All =>
          wakersMap := wakersMap[ReadKey(fd) := w];
          wakersMap := wakersMap[WriteKey(fd) := w];
      }
      poll.Modify(fd, interest);
    }

    /**
     * One event of `wait`: the waker in the slot the event names is taken out;
     * an error event, a timeout or an empty slot stops `wait` instead.
     */
    method TakeWaker(event: Event) returns (t: Taken)
      modifies this
      ensures t == Take(old(wakersMap), event)
      ensures wakersMap == if t.Took? then t.rest else old(wakersMap)
    {
      var token := event.userdata;
      match event.eventType {
        case ReadReady =>
          var k := ReadKey(token);
          if k in wakersMap {
            t := Took(wakersMap[k], wakersMap - {k});
            wakersMap := wakersMap - {k};
          } else {
            t := Abort(UnsupportedError);
          }
        case WriteReady =>
          var k := WriteKey(token);
          if k in wakersMap {
            t := Took(wakersMap[k], wakersMap - {k});
            wakersMap := wakersMap - {k};
          } else {
            t := Abort(UnsupportedError);
          }
        case Timeout =>
          t := Abort(UnsupportedError);
        case ErrorEvent(e) =>
          t := Abort(e);
      }
    }

    /**
     * `Reactor::wait`. `polled` is what the readiness source returned for the
     * current subscriptions; a failed poll is returned as it is (`?`). Each waker
     * taken out of its slot is invoked on `tasks`, the queue of the running
     * executor. The subscriptions are left as they are.
     */
    method Wait(polled: Result<seq<Event>>, tasks: TaskQueue) returns (r: Result<()>)
      modifies this, tasks
      ensures poll.subs == old(poll.subs)
      ensures polled.Err? ==> r == Err(polled.error) && wakersMap == old(wakersMap) && tasks.queue == old(tasks.queue)
      ensures polled.Ok? ==>
        var d := Dispatch(old(wakersMap), polled.value);
        r == d.result && wakersMap == d.wakers && tasks.queue == old(tasks.queue) + WokenTasks(d.woken)
    {
      if polled.Err? {
        return Err(polled.error);
      }
      var events := polled.value;
      ghost var m0 := wakersMap;
      ghost var q0 := tasks.queue;
      ghost var woken: seq<Waker> := [];
      assert events[0..] == events;
      var i := 0;
      while i < |events|
        invariant 0 <= i <= |events|
        invariant Dispatch(m0, events) == Prepend(woken, Dispatch(wakersMap, events[i..]))
        invariant tasks.queue == q0 + WokenTasks(woken)
        invariant poll.subs == old(poll.subs)
      {
        DispatchAt(wakersMap, events, i);
        var t := TakeWaker(events[i]);
        if t.Abort? {
          assert woken + [] == woken;
          return Err(t.error);
        }
        Wake(t.waker, tasks);
        WokenTasksAppend(woken, [t.waker]);
        PrependPrepend(woken, [t.waker], Dispatch(wakersMap, events[i + 1..]));
        woken := woken + [t.waker];
        i := i + 1;
      }
      assert events[i..] == [] && woken + [] == woken;
      return Ok(());
    }
  }
}
