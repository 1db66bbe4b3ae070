/**
  The batch layer: slots that are reused once their completion is delivered, over futures
  that other threads complete at any moment.
 */
module Batch {
  import opened Common

  const SUCCESS: nat := 0
  const INVALID_VALUE: nat := 5022
  const BATCH_FULL: nat := 5037

  datatype Future = Future(done: bool, result: int)

  // struct batch_entry
  datatype Entry = Entry(future: Future, cookie: nat, failed: bool, canceled: bool, delivered: bool)

  datatype Status = Complete | Failed | Canceled

  // opends_io_events_t
  datatype Event = Event(cookie: nat, status: Status, ret: nat)

  // ---------- the clock ----------

  const BILLION: nat := 1_000_000_000

  // struct timespec
  datatype Time = Time(sec: nat, nsec: nat)

  predicate Normal(t: Time) {
    t.nsec < BILLION
  }

  function Nanos(t: Time): nat {
    t.sec * BILLION + t.nsec
  }

  // The deadline of a wait that starts at now.
  function Deadline(now: Time, timeout: Time): Time {
    var sec, nsec := now.sec + timeout.sec, now.nsec + timeout.nsec;
    if nsec >= BILLION then Time(sec + 1, nsec - BILLION) else Time(sec, nsec)
  }

  predicate Expired(now: Time, deadline: Time) {
    now.sec > deadline.sec || (now.sec == deadline.sec && now.nsec >= deadline.nsec)
  }

  // On normal times the deadline has passed exactly when the timeout has.
  lemma ExpiredIff(start: Time, timeout: Time, now: Time)
    requires Normal(start) && Normal(timeout) && Normal(now)
    ensures Normal(Deadline(start, timeout))
    ensures Expired(now, Deadline(start, timeout)) <==> Nanos(now) >= Nanos(start) + Nanos(timeout)
  {
  }

  // ---------- entries ----------

  const BLANK: Entry := Entry(Future(false, 0), 0, false, false, false)

  // entry_done
  predicate EntryDone(e: Entry) {
    e.failed || e.future.done
  }

  // What is reported for an entry whose time has come.
  function EventOf(e: Entry): (ev: Event)
    ensures ev.cookie == e.cookie && (ev.status.Canceled? <==> e.canceled)
    ensures ev.status.Failed? <==> !e.canceled && (e.failed || e.future.result < 0)
    ensures ev.ret > 0 ==> ev.status.Complete?
    ensures ev.status.Complete? ==> ev.ret == e.future.result
  {
    if e.canceled then Event(e.cookie, Canceled, 0)
    else if e.failed then Event(e.cookie, Failed, 0)
    else if e.future.result < 0 then Event(e.cookie, Failed, 0)
    else Event(e.cookie, Complete, e.future.result)
  }

  // The cookie an entry still holds back.
  ghost function One(e: Entry): multiset<nat> {
    if e.delivered then multiset{} else multiset{e.cookie}
  }

  // The cookies of the entries below n that are not delivered yet.
  ghost function Pending(es: seq<Entry>, n: nat): multiset<nat>
    requires n <= |es|
  {
    if n == 0 then multiset{} else Pending(es, n - 1) + One(es[n - 1])
  }

  function Ready(e: Entry): nat {
    if !e.delivered && EntryDone(e) then 1 else 0
  }

  // How many of the entries in [lo, hi) can be delivered.
  ghost function ReadyIn(es: seq<Entry>, lo: nat, hi: nat): nat
    requires lo <= hi <= |es|
  {
    if lo == hi then 0 else ReadyIn(es, lo, hi - 1) + Ready(es[hi - 1])
  }

  lemma AddToBoth<T>(a: multiset<T>, x: multiset<T>, b: multiset<T>, y: multiset<T>, more: multiset<T>)
    requires a + x == b + y
    ensures (a + more) + x == (b + more) + y
  {
    assert (a + more) + x == (a + x) + more;
  }

  lemma {:induction false} PendingUpdate(es: seq<Entry>, n: nat, i: nat, e: Entry)
    requires i < n <= |es|
    ensures Pending(es[i := e], n) + One(es[i]) == Pending(es, n) + One(e)
  {
    if i < n - 1 {
      PendingUpdate(es, n - 1, i, e);
      AddToBoth(Pending(es[i := e], n - 1), One(es[i]), Pending(es, n - 1), One(e), One(es[n - 1]));
    } else {
      PendingSame(es, es[i := e], n - 1);
    }
  }

  // Entries that agree on cookies and deliveries hold the same cookies back.
  lemma {:induction false} PendingSame(es: seq<Entry>, fs: seq<Entry>, n: nat)
    requires n <= |es| == |fs|
    requires forall i :: 0 <= i < n ==> fs[i].delivered == es[i].delivered && fs[i].cookie == es[i].cookie
    ensures Pending(fs, n) == Pending(es, n)
  {
    if n > 0 { PendingSame(es, fs, n - 1); }
  }

  lemma {:induction false} PendingAll(es: seq<Entry>, n: nat)
    requires n <= |es| && forall i :: 0 <= i < n ==> !es[i].delivered
    ensures |Pending(es, n)| == n
  {
    if n > 0 { PendingAll(es, n - 1); }
  }

  // The accounts of a batch: inflight counts the cookies held back, and those together with
  // the ones returned are all that were submitted.
  datatype Account = Inflight | Balance | DeliveredDone | RestBlank

  ghost predicate Kept(es: seq<Entry>, used: nat, inflight: nat, submitted: multiset<nat>, returned: multiset<nat>,
      a: Account) {
    used <= |es| &&
    match a
    case Inflight => inflight == |Pending(es, used)|
    case Balance => submitted == returned + Pending(es, used)
    case DeliveredDone => forall i :: 0 <= i < used && es[i].delivered ==> EntryDone(es[i])
    case RestBlank => forall i :: used <= i < |es| ==> es[i] == BLANK
  }

  // Stated account by account, so that a proof opens them only where it looks inside.
  ghost predicate BatchOk(es: seq<Entry>, used: nat, inflight: nat, submitted: multiset<nat>, returned: multiset<nat>) {
    forall a: Account :: Kept(es, used, inflight, submitted, returned, a)
  }

  lemma {:induction false} Open(es: seq<Entry>, used: nat, inflight: nat, submitted: multiset<nat>,
      returned: multiset<nat>)
    requires BatchOk(es, used, inflight, submitted, returned)
    ensures used <= |es| && inflight == |Pending(es, used)| && submitted == returned + Pending(es, used)
    ensures forall i :: 0 <= i < used && es[i].delivered ==> EntryDone(es[i])
    ensures forall i :: used <= i < |es| ==> es[i] == BLANK
  {
    assert Kept(es, used, inflight, submitted, returned, Inflight)
           && Kept(es, used, inflight, submitted, returned, Balance);
    assert Kept(es, used, inflight, submitted, returned, DeliveredDone)
           && Kept(es, used, inflight, submitted, returned, RestBlank);
  }

  lemma TakeBalance(pending: multiset<nat>, pending': multiset<nat>, submitted: multiset<nat>, returned: multiset<nat>,
      c: multiset<nat>)
    requires submitted == returned + pending && pending' == pending + c
    ensures submitted + c == returned + pending'
  {
  }

  // The entry not yet delivered is no matter, and nothing else has changed.
  lemma TakeRest(es: seq<Entry>, n: nat, n': nat, k: nat, e: Entry, es': seq<Entry>)
    requires n <= n' <= |es| && k < n' && !e.delivered && ((n' == n && es[k].delivered) || (n' == n + 1 && k == n))
    requires forall i :: 0 <= i < n && es[i].delivered ==> EntryDone(es[i])
    requires forall i :: n <= i < |es| ==> es[i] == BLANK
    requires es' == es[k := e]
    ensures forall i :: 0 <= i < n' && es'[i].delivered ==> EntryDone(es'[i])
    ensures forall i :: n' <= i < |es'| ==> es'[i] == BLANK
  {
  }

  lemma {:induction false} Close(es: seq<Entry>, used: nat, inflight: nat, submitted: multiset<nat>,
      returned: multiset<nat>)
    requires used <= |es| && inflight == |Pending(es, used)| && submitted == returned + Pending(es, used)
    requires forall i :: 0 <= i < used && es[i].delivered ==> EntryDone(es[i])
    requires forall i :: used <= i < |es| ==> es[i] == BLANK
    ensures BatchOk(es, used, inflight, submitted, returned)
  {
  }

  lemma TakeKept(es: seq<Entry>, n: nat, n': nat, k: nat, e: Entry, inflight: nat, submitted: multiset<nat>,
      returned: multiset<nat>)
    requires BatchOk(es, n, inflight, submitted, returned)
    requires n <= n' <= |es| && k < n' && !e.delivered
    requires (n' == n && es[k].delivered) || (n' == n + 1 && k == n)
    ensures BatchOk(es[k := e], n', inflight + 1, submitted + multiset{e.cookie}, returned)
  {
    Open(es, n, inflight, submitted, returned);
    TakeAdds(es, n, n', k, e);
    TakeBalance(Pending(es, n), Pending(es[k := e], n'), submitted, returned, multiset{e.cookie});
    TakeRest(es, n, n', k, e, es[k := e]);
    Close(es[k := e], n', inflight + 1, submitted + multiset{e.cookie}, returned);
  }

  // Handing an entry's completion out moves its cookie to the returned ones.
  lemma DeliverKept(es: seq<Entry>, n: nat, k: nat, inflight: nat, submitted: multiset<nat>, returned: multiset<nat>)
    requires BatchOk(es, n, inflight, submitted, returned) && k < n <= |es| && !es[k].delivered && EntryDone(es[k])
    ensures inflight > 0
    ensures BatchOk(es[k := es[k].(delivered := true)], n, inflight - 1, submitted, returned + multiset{es[k].cookie})
  {
    Open(es, n, inflight, submitted, returned);
    var es' := es[k := es[k].(delivered := true)];
    PendingUpdate(es, n, k, es[k].(delivered := true));
    var c := multiset{es[k].cookie};
    assert Pending(es', n) + c == Pending(es, n) + multiset{} == Pending(es, n);
    assert |Pending(es', n) + c| == |Pending(es', n)| + 1;
    assert (returned + c) + Pending(es', n) == returned + (Pending(es', n) + c);
  }

  // Other threads do not touch the accounts.
  lemma EvolvesKept(es: seq<Entry>, fs: seq<Entry>, n: nat, inflight: nat, submitted: multiset<nat>,
      returned: multiset<nat>)
    requires BatchOk(es, n, inflight, submitted, returned) && Evolves(es, fs) && forall i :: n <= i < |es| ==>
             fs[i] == es[i]
    ensures BatchOk(fs, n, inflight, submitted, returned)
  {
    Open(es, n, inflight, submitted, returned);
    forall i | 0 <= i < n ensures fs[i].delivered == es[i].delivered && fs[i].cookie == es[i].cookie
        && (EntryDone(es[i]) ==> EntryDone(fs[i])) {
      assert EntryEvolves(es[i], fs[i]);
    }
    PendingSame(es, fs, n);
  }

  // Canceling an entry changes only how it will be reported.
  lemma CancelKept(es: seq<Entry>, n: nat, k: nat, inflight: nat, submitted: multiset<nat>, returned: multiset<nat>)
    requires BatchOk(es, n, inflight, submitted, returned) && k < n <= |es|
    ensures BatchOk(es[k := es[k].(canceled := true)], n, inflight, submitted, returned)
  {
    Open(es, n, inflight, submitted, returned);
    PendingSame(es, es[k := es[k].(canceled := true)], n);
  }

  // A reused or a newly opened slot holds one more cookie back.
  lemma TakeAdds(es: seq<Entry>, n: nat, n': nat, k: nat, e: Entry)
    requires n <= n' <= |es| && k < n' && !e.delivered
    requires (n' == n && es[k].delivered) || (n' == n + 1 && k == n)
    ensures Pending(es[k := e], n') == Pending(es, n) + multiset{e.cookie}
    ensures |Pending(es[k := e], n')| == |Pending(es, n)| + 1
  {
    if n' == n {
      PendingUpdate(es, n, k, e);
      assert Pending(es[k := e], n) + multiset{} == Pending(es[k := e], n);
    } else {
      PendingSame(es, es[k := e], n);
    }
  }

  // ---------- other threads ----------

  // What other threads may do to the entries: complete futures, nothing else.
  ghost predicate Evolves(es: seq<Entry>, fs: seq<Entry>) {
    && |fs| == |es|
    && forall i :: 0 <= i < |es| ==> EntryEvolves(es[i], fs[i])
  }

  ghost predicate EntryEvolves(e: Entry, f: Entry) {
    f == e.(future := f.future) && (e.future.done ==> f.future == e.future)
  }

  lemma EvolvesOn(es: seq<Entry>, fs: seq<Entry>, gs: seq<Entry>)
    requires Evolves(es, fs) && Evolves(fs, gs)
    ensures Evolves(es, gs)
  {
    forall i | 0 <= i < |es| ensures EntryEvolves(es[i], gs[i]) {
      assert EntryEvolves(es[i], fs[i]) && EntryEvolves(fs[i], gs[i]);
    }
  }

  // The event is the report of entry k of es, at a moment at which it was done.
  ghost predicate Reports(es: seq<Entry>, k: nat, ev: Event) {
    k < |es| && !es[k].delivered && exists f :: EntryEvolves(es[k], f) && EntryDone(f) && ev == EventOf(f)
  }

  ghost function CookiesOf(events: seq<Event>): multiset<nat> {
    if events == [] then multiset{} else CookiesOf(events[..|events| - 1]) + multiset{events[|events| - 1].cookie}
  }

  // Canceling waits for an entry and marks it, and leaves a delivered one as it is.
  ghost predicate Settles(e: Entry, f: Entry) {
    && f == e.(future := f.future, canceled := f.canceled) && (e.future.done ==> f.future == e.future)
    && (e.canceled ==> f.canceled) && (e.delivered ==> f.canceled == e.canceled)
  }

  // From entry i on the entries have only evolved.
  ghost predicate RestEvolves(es: seq<Entry>, fs: seq<Entry>, i: nat) {
    |fs| == |es| && forall x :: i <= x < |es| ==> EntryEvolves(es[x], fs[x])
  }

  lemma RestEvolvesOn(es: seq<Entry>, fs: seq<Entry>, gs: seq<Entry>, i: nat)
    requires RestEvolves(es, fs, i) && RestEvolves(fs, gs, i + 1)
    ensures RestEvolves(es, gs, i + 1)
  {
    forall x | i + 1 <= x < |es| ensures EntryEvolves(es[x], gs[x]) {
      assert EntryEvolves(es[x], fs[x]) && EntryEvolves(fs[x], gs[x]);
    }
  }

  // The batch has given up exactly the cookies of the events.
  ghost predicate Settled(returned0: multiset<nat>, inflight0: int, events: seq<Event>, returned: multiset<nat>,
      inflight: int) {
    returned == returned0 + CookiesOf(events) && inflight == inflight0 - |events|
  }

  lemma SettledMore(returned0: multiset<nat>, inflight0: int, events: seq<Event>, returned: multiset<nat>,
      inflight: int, ev: Event)
    requires Settled(returned0, inflight0, events, returned, inflight)
    ensures Settled(returned0, inflight0, events + [ev], returned + multiset{ev.cookie}, inflight - 1)
  {
    assert (events + [ev])[..|events|] == events;
  }

  // The entry of an operation under way, or of a refused one.
  ghost predicate Notes(e: Entry, cookie: nat, refused: bool) {
    e.cookie == cookie && e.failed == refused && !e.canceled && !e.delivered
  }

  function NewEntry(cookie: nat, fails: bool): Entry {
    BLANK.(cookie := cookie, failed := fails)
  }

  // Submitted operation j sits in slot at[j], a slot of its own.
  ghost predicate Placed(es: seq<Entry>, used: nat, cookies: seq<nat>, refuses: nat -> bool, at: seq<nat>) {
    && used <= |es| && |at| == |cookies|
    && (forall j :: 0 <= j < |at| ==> at[j] < used && Notes(es[at[j]], cookies[j], refuses(j)))
    && (forall j, k :: 0 <= j < k < |at| ==> at[j] != at[k])
  }

  lemma PlacedMore(es: seq<Entry>, used: nat, used': nat, cookies: seq<nat>, i: nat, refuses: nat -> bool,
      at: seq<nat>, k: nat)
    requires i < |cookies| && Placed(es, used, cookies[..i], refuses, at) && k < used' <= |es| && used <= used'
    requires k < used ==> es[k].delivered
    ensures Placed(es[k := NewEntry(cookies[i], refuses(i))], used', cookies[..i + 1], refuses, at + [k])
  {
    var es', at' := es[k := NewEntry(cookies[i], refuses(i))], at + [k];
    forall j | 0 <= j < |at'| ensures at'[j] < used' && Notes(es'[at'[j]], cookies[..i + 1][j], refuses(j))
                                      && (j < i ==> at'[j] != k) {
      if j < i {
        assert Notes(es[at[j]], cookies[..i][j], refuses(j));
      }
    }
  }

  lemma PlacedStays(es: seq<Entry>, fs: seq<Entry>, used: nat, cookies: seq<nat>, refuses: nat -> bool, at: seq<nat>)
    requires Placed(es, used, cookies, refuses, at) && Evolves(es, fs)
    ensures Placed(fs, used, cookies, refuses, at)
  {
    forall j | 0 <= j < |at| ensures at[j] < used && Notes(fs[at[j]], cookies[j], refuses(j)) {
      assert Notes(es[at[j]], cookies[j], refuses(j));
      assert EntryEvolves(es[at[j]], fs[at[j]]);
    }
  }

  // All but the entries at these slots have only evolved.
  ghost predicate OthersEvolve(es: seq<Entry>, fs: seq<Entry>, at: seq<nat>) {
    && |fs| == |es|
    && forall x: nat :: x < |es| && x !in at ==> EntryEvolves(es[x], fs[x])
  }

  lemma OthersOn(es: seq<Entry>, fs: seq<Entry>, gs: seq<Entry>, at: seq<nat>, more: seq<nat>)
    requires OthersEvolve(es, fs, at) && OthersEvolve(fs, gs, more)
    ensures OthersEvolve(es, gs, at + more)
  {
    forall x: nat | x < |es| && x !in at + more ensures EntryEvolves(es[x], gs[x]) {
      assert EntryEvolves(es[x], fs[x]) && EntryEvolves(fs[x], gs[x]);
    }
  }

  // What the delivery loop has handed out so far: one event per visited entry, in order,
  // with at the entries reported.
  ghost predicate Handed(es: seq<Entry>, events: seq<Event>, at: seq<nat>, i: nat) {
    && |at| == |events|
    && (forall j :: 0 <= j < |at| ==> at[j] < i && Reports(es, at[j], events[j]))
    && (forall j, k :: 0 <= j < k < |at| ==> at[j] < at[k])
  }

  lemma HandedMore(es: seq<Entry>, fs: seq<Entry>, events: seq<Event>, at: seq<nat>, i: nat, ev: Event)
    requires Handed(es, events, at, i) && RestEvolves(es, fs, i) && i < |es| && Reports(fs, i, ev)
    ensures Handed(es, events + [ev], at + [i], i + 1)
  {
    var f :| EntryEvolves(fs[i], f) && EntryDone(f) && ev == EventOf(f);
    assert EntryEvolves(es[i], fs[i]) && EntryEvolves(es[i], f);
    assert Reports(es, i, ev);
    var at' := at + [i];
    forall j | 0 <= j < |at'| ensures at'[j] < i + 1 && Reports(es, at'[j], (events + [ev])[j]) {
      if j < |at| { assert Reports(es, at[j], events[j]); }
    }
  }

  // The entries handed out are marked so, and the others have only evolved.
  ghost predicate HandedOver(es: seq<Entry>, fs: seq<Entry>, at: seq<nat>) {
    && |fs| == |es|
    && forall x: nat :: x < |es| ==> if x in at then fs[x].delivered else EntryEvolves(es[x], fs[x])
  }

  lemma HandedOverMore(es: seq<Entry>, fs: seq<Entry>, gs: seq<Entry>, at: seq<nat>, more: seq<nat>)
    requires HandedOver(es, fs, at) && HandedOver(fs, gs, more)
    ensures HandedOver(es, gs, at + more)
  {
    forall x: nat | x < |es|
      ensures if x in at + more then gs[x].delivered else EntryEvolves(es[x], gs[x]) {
      assert x in at ==> fs[x].delivered;
      assert x in more ==> gs[x].delivered;
    }
  }

  lemma HandedOverFromBefore(es: seq<Entry>, fs: seq<Entry>, gs: seq<Entry>, at: seq<nat>)
    requires Evolves(es, fs) && HandedOver(fs, gs, at)
    ensures HandedOver(es, gs, at)
  {
    forall x: nat | x < |es| && x !in at ensures EntryEvolves(es[x], gs[x]) {
      assert EntryEvolves(es[x], fs[x]) && EntryEvolves(fs[x], gs[x]);
    }
  }

  lemma HandedFromBefore(es: seq<Entry>, fs: seq<Entry>, events: seq<Event>, at: seq<nat>, i: nat)
    requires Evolves(es, fs) && Handed(fs, events, at, i)
    ensures Handed(es, events, at, i)
  {
    forall j | 0 <= j < |at| ensures at[j] < i && Reports(es, at[j], events[j]) {
      assert Reports(fs, at[j], events[j]);
      var f :| EntryEvolves(fs[at[j]], f) && EntryDone(f) && events[j] == EventOf(f);
      assert EntryEvolves(es[at[j]], fs[at[j]]) && EntryEvolves(es[at[j]], f);
    }
  }

  // Where the delivery loop stands at entry i: es are the entries at its start. Stated
  // aspect by aspect, like the accounts of the batch.
  datatype Aspect = Ahead | Behind | Given | Owed

  ghost predicate Stands(es: seq<Entry>, fs: seq<Entry>, used: nat, i: nat, events: seq<Event>, at: seq<nat>,
                         returned0: multiset<nat>, inflight0: int, returned: multiset<nat>, inflight: int, a: Aspect) {
    i <= used <= |es| == |fs| &&
    match a
    case Ahead => RestEvolves(es, fs, i)
    case Behind => Handed(es, events, at, i) && HandedOver(es, fs, at)
    case Given => Settled(returned0, inflight0, events, returned, inflight)
    case Owed => |events| + ReadyIn(fs, i, used) >= ReadyIn(es, 0, used)
  }

  ghost predicate Underway(es: seq<Entry>, fs: seq<Entry>, used: nat, i: nat, events: seq<Event>, at: seq<nat>,
                           returned0: multiset<nat>, inflight0: int, returned: multiset<nat>, inflight: int) {
    forall a: Aspect :: Stands(es, fs, used, i, events, at, returned0, inflight0, returned, inflight, a)
  }

  lemma {:induction false} OpenUnderway(es: seq<Entry>, fs: seq<Entry>, used: nat, i: nat, events: seq<Event>,
      at: seq<nat>, returned0: multiset<nat>, inflight0: int, returned: multiset<nat>, inflight: int)
    requires Underway(es, fs, used, i, events, at, returned0, inflight0, returned, inflight)
    ensures i <= used <= |es| && RestEvolves(es, fs, i) && Handed(es, events, at, i) && HandedOver(es, fs, at)
    ensures Settled(returned0, inflight0, events, returned, inflight)
    ensures |events| + ReadyIn(fs, i, used) >= ReadyIn(es, 0, used)
  {
    assert Stands(es, fs, used, i, events, at, returned0, inflight0, returned, inflight, Ahead)
           && Stands(es, fs, used, i, events, at, returned0, inflight0, returned, inflight, Behind);
    assert Stands(es, fs, used, i, events, at, returned0, inflight0, returned, inflight, Given)
           && Stands(es, fs, used, i, events, at, returned0, inflight0, returned, inflight, Owed);
  }

  lemma {:induction false} CloseUnderway(es: seq<Entry>, fs: seq<Entry>, used: nat, i: nat, events: seq<Event>,
      at: seq<nat>, returned0: multiset<nat>, inflight0: int, returned: multiset<nat>, inflight: int)
    requires i <= used <= |es| && RestEvolves(es, fs, i) && Handed(es, events, at, i) && HandedOver(es, fs, at)
    requires Settled(returned0, inflight0, events, returned, inflight)
    requires |events| + ReadyIn(fs, i, used) >= ReadyIn(es, 0, used)
    ensures Underway(es, fs, used, i, events, at, returned0, inflight0, returned, inflight)
  {
  }

  // Entry i is handed out.
  lemma {:induction false} UnderwayGiven(es: seq<Entry>, fs: seq<Entry>, gs: seq<Entry>, used: nat, i: nat,
      events: seq<Event>, at: seq<nat>, returned0: multiset<nat>, inflight0: int, returned: multiset<nat>,
      inflight: int, ev: Event)
    requires i < used <= |es| == |fs|
    requires Underway(es, fs, used, i, events, at, returned0, inflight0, returned, inflight)
    requires RestEvolves(fs, gs, i + 1) && Reports(fs, i, ev) && HandedOver(fs, gs, [i])
    requires 1 + ReadyIn(gs, i + 1, used) >= ReadyIn(fs, i, used)
    ensures Underway(es, gs, used, i + 1, events + [ev], at + [i], returned0, inflight0,
                     returned + multiset{ev.cookie}, inflight - 1)
  {
    OpenUnderway(es, fs, used, i, events, at, returned0, inflight0, returned, inflight);
    RestEvolvesOn(es, fs, gs, i);
    HandedOverMore(es, fs, gs, at, [i]);
    HandedMore(es, fs, events, at, i, ev);
    SettledMore(returned0, inflight0, events, returned, inflight, ev);
    CloseUnderway(es, gs, used, i + 1, events + [ev], at + [i], returned0, inflight0,
        returned + multiset{ev.cookie}, inflight - 1);
  }

  // Entry i is passed over.
  lemma {:induction false} UnderwayPast(es: seq<Entry>, fs: seq<Entry>, gs: seq<Entry>, used: nat, i: nat,
      events: seq<Event>, at: seq<nat>, returned0: multiset<nat>, inflight0: int, returned: multiset<nat>,
      inflight: int)
    requires i < used <= |es| == |fs|
    requires Underway(es, fs, used, i, events, at, returned0, inflight0, returned, inflight)
    requires RestEvolves(fs, gs, i + 1) && HandedOver(fs, gs, []) && ReadyIn(gs, i + 1, used) >= ReadyIn(fs, i, used)
    ensures Underway(es, gs, used, i + 1, events, at, returned0, inflight0, returned, inflight)
  {
    OpenUnderway(es, fs, used, i, events, at, returned0, inflight0, returned, inflight);
    RestEvolvesOn(es, fs, gs, i);
    HandedOverMore(es, fs, gs, at, []);
    assert at + [] == at;
    CloseUnderway(es, gs, used, i + 1, events, at, returned0, inflight0, returned, inflight);
  }

  // What can be delivered stays deliverable.
  lemma {:induction false} ReadyStays(es: seq<Entry>, fs: seq<Entry>, lo: nat, hi: nat)
    requires Evolves(es, fs) && lo <= hi <= |es|
    ensures ReadyIn(fs, lo, hi) >= ReadyIn(es, lo, hi)
  {
    if lo < hi {
      assert EntryEvolves(es[hi - 1], fs[hi - 1]);
      ReadyStays(es, fs, lo, hi - 1);
    }
  }

  lemma {:induction false} ReadyFirst(es: seq<Entry>, lo: nat, hi: nat)
    requires lo < hi <= |es|
    ensures ReadyIn(es, lo, hi) == Ready(es[lo]) + ReadyIn(es, lo + 1, hi)
  {
    if lo + 1 < hi { ReadyFirst(es, lo, hi - 1); }
  }

  lemma {:induction false} ReadySame(es: seq<Entry>, fs: seq<Entry>, lo: nat, hi: nat)
    requires lo <= hi <= |es| == |fs| && forall i :: lo <= i < hi ==> fs[i] == es[i]
    ensures ReadyIn(fs, lo, hi) == ReadyIn(es, lo, hi)
  {
    if lo < hi { ReadySame(es, fs, lo, hi - 1); }
  }

  class AsyncBatch {
    const entries: array<Entry>
    var used: nat
    var inflight: nat
    const capacity: nat
    var patience: nat                       // passes other threads may still sit out
    var now: Time                           // CLOCK_MONOTONIC
    ghost var submitted: multiset<nat>      // history: cookies handed in
    ghost var returned: multiset<nat>       // history: cookies delivered

    ghost predicate Valid()
      reads this, entries
    {
      Normal(now) && used <= capacity == entries.Length && BatchOk(entries[..], used, inflight, submitted, returned)
    }

    // opends_batch_setup
    constructor (nr: nat, patience: nat, now: Time)
      requires nr > 0 && Normal(now)
      ensures Valid() && capacity == nr && inflight == 0 && used == 0 && fresh(entries)
      ensures submitted == returned == multiset{}
    {
      entries := new Entry[nr](i => BLANK);
      capacity := nr;
      used := 0;
      inflight := 0;
      this.patience := patience;
      this.now := now;
      submitted := multiset{};
      returned := multiset{};
    }

    // clock_gettime: some time later
    method ReadClock()
      requires Valid()
      modifies this`now
      ensures Valid() && Nanos(now) >= Nanos(old(now))
    {
      var t: Time := *;
      if Normal(t) && Nanos(t) >= Nanos(now) {
        now := t;
      }
    }

    // A moment in which other threads run; in the end they complete everything.
    method Yield()
      requires Valid()
      modifies entries, this`patience
      ensures Valid() && Evolves(old(entries[..]), entries[..]) && patience <= old(patience)
      ensures patience < old(patience) || forall i :: 0 <= i < used ==> EntryDone(entries[i])
    {
      var completes: nat -> bool, results: nat -> int := *, *;
      var all := patience == 0;
      if !all {
        patience := patience - 1;
      }
      ghost var es := entries[..];
      forall i | 0 <= i < used && !entries[i].failed && !entries[i].future.done && (all || completes(i)) {
        entries[i] := entries[i].(future := Future(true, results(i)));
      }
      EvolvesKept(es, entries[..], used, inflight, submitted, returned);
    }

    // entry_take: a delivered slot is blanked and reused, else the next one is opened
    method EntryTake() returns (k: nat)
      requires Valid() && inflight < capacity
      modifies entries, this`used
      ensures k < used <= capacity && old(used) <= used
      ensures entries[..] == old(entries[..])[k := BLANK]
      ensures (used == old(used) && old(entries[..])[k].delivered) || (used == old(used) + 1 && k == old(used))
    {
      var i: nat := 0;
      while i < used
        invariant i <= used && entries[..] == old(entries[..])
        invariant forall j :: 0 <= j < i ==> !entries[j].delivered
      {
        if entries[i].delivered {
          entries[i] := BLANK;
          return i;
        }
        i := i + 1;
      }
      Open(entries[..], used, inflight, submitted, returned);
      PendingAll(entries[..], used);
      used := used + 1;
      return used - 1;
    }

    // The operation is noted in its entry; a refused one is done at once.
    method FillEntry(k: nat, cookie: nat, fails: bool)
      requires k < entries.Length && entries[k] == BLANK
      modifies entries
      ensures entries[..] == old(entries[..])[k := NewEntry(cookie, fails)]
    {
      entries[k] := entries[k].(cookie := cookie);
      if fails {
        entries[k] := entries[k].(failed := true);
      }
    }

    // One entry of opends_batch_submit; fails: the backend refuses the operation.
    method SubmitOne(cookie: nat, fails: bool) returns (k: nat)
      requires Valid() && inflight < capacity
      modifies entries, this`used, this`inflight, this`submitted
      ensures Valid() && inflight == old(inflight) + 1 && submitted == old(submitted) + multiset{cookie}
      ensures k < used && old(used) <= used && (k < old(used) ==> old(entries[..])[k].delivered)
      ensures entries[..] == old(entries[..])[k := NewEntry(cookie, fails)]
    {
      ghost var es, n := entries[..], used;
      k := EntryTake();
      FillEntry(k, cookie, fails);
      assert entries[..] == es[k := NewEntry(cookie, fails)];
      TakeKept(es, n, used, k, NewEntry(cookie, fails), inflight, submitted, returned);
      inflight := inflight + 1;
      submitted := submitted + multiset{cookie};
    }

    // One turn of the loop of opends_batch_submit: the i-th operation joins those before it.
    method SubmitNext(cookies: seq<nat>, i: nat, refuses: nat -> bool, ghost at: seq<nat>) returns (k: nat)
      requires Valid() && i < |cookies| && inflight < capacity
      requires Placed(entries[..], used, cookies[..i], refuses, at)
      modifies entries, this`used, this`inflight, this`submitted, this`patience
      ensures Valid() && inflight == old(inflight) + 1 && submitted == old(submitted) + multiset{cookies[i]}
      ensures Placed(entries[..], used, cookies[..i + 1], refuses, at + [k])
      ensures OthersEvolve(old(entries[..]), entries[..], [k])
    {
      ghost var es, n := entries[..], used;
      k := SubmitOne(cookies[i], refuses(i));
      PlacedMore(es, n, used, cookies, i, refuses, at, k);
      ghost var fs := entries[..];
      Yield();
      PlacedStays(fs, entries[..], used, cookies[..i + 1], refuses, at + [k]);
      OthersOn(es, fs, entries[..], [k], []);
    }

    // The loop of opends_batch_submit, once the check has found room for all of it; at: the
    // slots the operations were given.
    method SubmitAll(cookies: seq<nat>, refuses: nat -> bool) returns (ghost at: seq<nat>)
      requires Valid() && |cookies| <= capacity - inflight
      modifies entries, this`used, this`inflight, this`submitted, this`patience
      ensures Valid() && submitted == old(submitted) + multiset(cookies) && inflight == old(inflight) + |cookies|
      ensures Placed(entries[..], used, cookies, refuses, at) && OthersEvolve(old(entries[..]), entries[..], at)
    {
      ghost var es := entries[..];
      at := [];
      var i: nat := 0;
      while i < |cookies|
        invariant Valid() && i <= |cookies| && inflight == old(inflight) + i
        invariant submitted == old(submitted) + multiset(cookies[..i])
        invariant Placed(entries[..], used, cookies[..i], refuses, at) && OthersEvolve(es, entries[..], at)
      {
        ghost var fs := entries[..];
        var k := SubmitNext(cookies, i, refuses, at);
        OthersOn(es, fs, entries[..], at, [k]);
        at := at + [k];
        OneMore(cookies, i, old(submitted));
        i := i + 1;
      }
      assert cookies[..i] == cookies;
    }

    /**
      opends_batch_submit: all of the operations or none, each in a slot of its own that was
      free. The slots stay inside the array, because as many are free as the check leaves
      room for.
     */
    method Submit(cookies: seq<nat>, refuses: nat -> bool) returns (err: nat, ghost at: seq<nat>)
      requires Valid()
      modifies entries, this`used, this`inflight, this`submitted, this`patience
      ensures Valid()
      ensures err == if |cookies| > capacity - old(inflight) then BATCH_FULL else SUCCESS
      ensures err == SUCCESS ==>
              submitted == old(submitted) + multiset(cookies) && inflight == old(inflight) + |cookies|
      ensures err == SUCCESS ==>
              Placed(entries[..], used, cookies, refuses, at) && OthersEvolve(old(entries[..]), entries[..], at)
      ensures err != SUCCESS ==>
              && entries[..] == old(entries[..]) && used == old(used)
              && inflight == old(inflight) && submitted == old(submitted)
    {
      InflightFits(entries[..], used, inflight, submitted, returned);
      if |cookies| > capacity - inflight {
        return BATCH_FULL, [];
      }
      at := SubmitAll(cookies, refuses);
      err := SUCCESS;
    }

    // count_ready, while other threads run: no more than can be delivered at its end, no
    // less than at its start.
    method CountReady() returns (ready: nat)
      requires Valid()
      modifies entries, this`patience
      ensures Valid() && Evolves(old(entries[..]), entries[..]) && patience <= old(patience)
      ensures ReadyIn(old(entries[..]), 0, used) <= ready <= ReadyIn(entries[..], 0, used)
    {
      ghost var es := entries[..];
      ready := 0;
      var i: nat := 0;
      while i < used
        invariant i <= used && Valid() && Evolves(es, entries[..]) && patience <= old(patience)
        invariant ReadyIn(es, 0, i) <= ready <= ReadyIn(entries[..], 0, i)
      {
        ghost var fs := entries[..];
        Yield();
        EvolvesOn(es, fs, entries[..]);
        ReadyStays(fs, entries[..], 0, i);
        assert EntryEvolves(es[i], entries[..][i]);
        if !entries[i].delivered && EntryDone(entries[i]) {
          ready := ready + 1;
        }
        i := i + 1;
      }
    }

    // Waits until min entries can be delivered, or the deadline passes.
    method WaitReady(min: nat, deadline: Option<Time>) returns (timedOut: bool)
      requires Valid() && min <= inflight
      modifies entries, this`patience, this`now
      ensures Valid() && Evolves(old(entries[..]), entries[..])
      ensures timedOut ==> deadline.Some? && Expired(now, deadline.value)
      ensures !timedOut ==> ReadyIn(entries[..], 0, used) >= min
    {
      ghost var es := entries[..];
      var ready := CountReady();
      while ready < min
        invariant Valid() && Evolves(es, entries[..]) && ready <= ReadyIn(entries[..], 0, used)
        decreases patience, ready < min
      {
        if deadline.Some? {
          ReadClock();
          if Expired(now, deadline.value) {
            return true;
          }
        }
        ghost var fs, was := entries[..], patience;
        Yield();
        EvolvesOn(es, fs, entries[..]);
        ghost var gs := entries[..];
        if forall i :: 0 <= i < used ==> EntryDone(gs[i]) {
          Open(gs, used, inflight, submitted, returned);
          AllReady(gs, used, inflight);
        }
        ready := CountReady();
        EvolvesOn(es, gs, entries[..]);
      }
      return false;
    }

    // The step of the delivery loop: entry k is handed out.
    method Deliver(k: nat) returns (ev: Event)
      requires Valid() && k < used && !entries[k].delivered && EntryDone(entries[k])
      modifies entries, this`inflight, this`returned
      ensures Valid() && ev == EventOf(old(entries[k])) && entries[..]
              == old(entries[..])[k := old(entries[k]).(delivered := true)]
      ensures inflight == old(inflight) - 1 && returned == old(returned) + multiset{ev.cookie}
    {
      DeliverKept(entries[..], used, k, inflight, submitted, returned);
      ev := EventOf(entries[k]);
      ghost var es := entries[..][k := entries[k].(delivered := true)];
      entries[k] := entries[k].(delivered := true);
      assert entries[..] == es;
      inflight := inflight - 1;
      returned := returned + multiset{ev.cookie};
    }

    // One iteration of the delivery loop: entry i is handed out if its time has come.
    method VisitEntry(i: nat) returns (given: bool, ev: Event)
      requires Valid() && i < used
      modifies entries, this`inflight, this`returned, this`patience
      ensures Valid() && RestEvolves(old(entries[..]), entries[..], i + 1)
      ensures HandedOver(old(entries[..]), entries[..], if given then [i] else [])
      ensures given ==>
              && Reports(old(entries[..]), i, ev)
              && returned == old(returned) + multiset{ev.cookie} && inflight == old(inflight) - 1
      ensures !given ==> returned == old(returned) && inflight == old(inflight)
      ensures (if given then 1 else 0) + ReadyIn(entries[..], i + 1, used) >= ReadyIn(old(entries[..]), i, used)
    {
      ghost var es := entries[..];
      Yield();
      ghost var gs := entries[..];
      ReadyStays(es, gs, i, used);
      ReadyFirst(gs, i, used);
      assert EntryEvolves(es[i], gs[i]);
      if !entries[i].delivered && EntryDone(entries[i]) {
        ev := Deliver(i);
        ReadySame(gs, entries[..], i + 1, used);
        return true, ev;
      }
      return false, Event(0, Failed, 0);
    }

    // The same in the course of the loop, which began with es and has handed out events.
    method VisitNext(i: nat, ghost es: seq<Entry>, ghost events: seq<Event>, ghost at: seq<nat>,
        ghost returned0: multiset<nat>, ghost inflight0: int) returns (given: bool, ev: Event)
      requires Valid() && i < used <= |es| == entries.Length
      requires Underway(es, entries[..], used, i, events, at, returned0, inflight0, returned, inflight)
      modifies entries, this`inflight, this`returned, this`patience
      ensures Valid()
      ensures given ==> Underway(es, entries[..], used, i + 1, events + [ev], at + [i], returned0, inflight0, returned,
                                 inflight)
      ensures !given ==>
                Underway(es, entries[..], used, i + 1, events, at, returned0, inflight0, returned, inflight)
    {
      ghost var fs, r1, n1 := entries[..], returned, inflight;
      given, ev := VisitEntry(i);
      if given {
        UnderwayGiven(es, fs, entries[..], used, i, events, at, returned0, inflight0, r1, n1, ev);
      } else {
        UnderwayPast(es, fs, entries[..], used, i, events, at, returned0, inflight0, r1, n1);
      }
    }

    // The delivery loop of opends_batch_get_status; at: the entries handed out.
    method DeliverUpTo(nr: nat) returns (events: seq<Event>, ghost at: seq<nat>)
      requires Valid()
      modifies entries, this`inflight, this`returned, this`patience
      ensures Valid() && |events| <= nr && Handed(old(entries[..]), events, at, used)
      ensures Settled(old(returned), old(inflight), events, returned, inflight)
      ensures |events| == nr || |events| >= ReadyIn(old(entries[..]), 0, used)
      ensures HandedOver(old(entries[..]), entries[..], at)
    {
      ghost var es := entries[..];
      events, at := [], [];
      var i: nat := 0;
      CloseUnderway(es, es, used, 0, [], [], returned, inflight, returned, inflight);
      while i < used && |events| < nr
        invariant Valid() && |events| <= nr
        invariant Underway(es, entries[..], used, i, events, at, old(returned), old(inflight), returned, inflight)
        decreases used - i
      {
        var given, ev := VisitNext(i, es, events, at, old(returned), old(inflight));
        if given {
          events, at := events + [ev], at + [i];
        }
        i := i + 1;
      }
      OpenUnderway(es, entries[..], used, i, events, at, old(returned), old(inflight), returned, inflight);
    }

    /**
      opends_batch_get_status: hands out at most nr completions, each the report of another
      entry (at) not handed out before: nr of them or all that could be handed out at the call,
      and at least min_nr unless the deadline passed, however other threads complete futures
      meanwhile. The entries handed out are free again, the others go on. Every cookie handed out leaves the batch.
     */
    method GetStatus(minNr: nat, nr: nat, timeout: Option<Time>)
        returns (err: nat, events: seq<Event>, timedOut: bool, ghost at: seq<nat>)
      requires Valid()
      modifies entries, this`inflight, this`returned, this`patience, this`now
      ensures Valid()
      ensures err == if minNr > nr || minNr > old(inflight) then INVALID_VALUE else SUCCESS
      ensures |events| <= nr && Settled(old(returned), old(inflight), events, returned, inflight)
      ensures err == SUCCESS && !timedOut ==> |events| >= minNr
      ensures timedOut ==> timeout.Some?
      ensures timedOut && Normal(timeout.value) ==> Nanos(now) >= Nanos(old(now)) + Nanos(timeout.value)
      ensures Handed(old(entries[..]), events, at, used)
      ensures err == SUCCESS ==> |events| == nr || |events| >= ReadyIn(old(entries[..]), 0, used)
      ensures err == SUCCESS ==> HandedOver(old(entries[..]), entries[..], at)
      ensures err != SUCCESS ==> events == [] && entries[..] == old(entries[..])
    {
      events, at, timedOut := [], [], false;
      if minNr > nr || minNr > inflight {
        return INVALID_VALUE, events, timedOut, at;
      }
      var deadline: Option<Time> := None;
      ghost var start := now;
      if timeout.Some? {
        ReadClock();
        start := now;
        deadline := Some(Deadline(now, timeout.value));
      }
      timedOut := WaitReady(minNr, deadline);
      if timedOut && Normal(timeout.value) {
        ExpiredIff(start, timeout.value, now);
      }
      ghost var fs := entries[..];
      events, at := DeliverUpTo(nr);
      HandedFromBefore(old(entries[..]), fs, events, at, used);
      HandedOverFromBefore(old(entries[..]), fs, entries[..], at);
      ReadyStays(old(entries[..]), fs, 0, used);
      err := SUCCESS;
    }

    // opends_async_await on entry k
    method Await(k: nat)
      requires Valid() && k < used && !entries[k].failed
      modifies entries, this`patience
      ensures Valid() && Evolves(old(entries[..]), entries[..]) && entries[k].future.done
    {
      ghost var es := entries[..];
      while !entries[k].future.done
        invariant Valid() && Evolves(es, entries[..])
        decreases patience, !entries[k].future.done
      {
        ghost var fs := entries[..];
        Yield();
        EvolvesOn(es, fs, entries[..]);
        assert EntryEvolves(es[k], entries[..][k]);
      }
    }

    // One iteration of opends_batch_cancel.
    method CancelEntry(i: nat)
      requires Valid() && i < used
      modifies entries, this`patience
      ensures Valid() && (forall j :: 0 <= j < used ==> Settles(old(entries[..])[j], entries[..][j]))
      ensures EntryDone(entries[i]) && (entries[i].delivered || entries[i].canceled)
    {
      Open(entries[..], used, inflight, submitted, returned);
      if !entries[i].delivered {
        ghost var es := entries[..];
        if !entries[i].failed {
          Await(i);
        }
        ghost var fs := entries[..];
        assert forall j :: 0 <= j < used ==> EntryEvolves(es[j], fs[j]);
        CancelKept(fs, used, i, inflight, submitted, returned);
        ghost var gs := fs[i := fs[i].(canceled := true)];
        entries[i] := entries[i].(canceled := true);
        assert entries[..] == gs;
        assert entries[i] == gs[i];
      }
    }

    /**
      opends_batch_cancel: what is outstanding is waited for, and every undelivered entry is
      from then on reported as canceled. Nothing is handed out.
     */
    method Cancel()
      requires Valid()
      modifies entries, this`patience
      ensures Valid()
      ensures forall i :: 0 <= i < used ==> Settles(old(entries[..])[i], entries[..][i])
      ensures forall i :: 0 <= i < used && !entries[i].delivered ==> entries[i].canceled
      ensures ReadyIn(entries[..], 0, used) == inflight
    {
      var i: nat := 0;
      while i < used
        invariant i <= used && Valid()
        invariant forall j :: 0 <= j < used ==> Settles(old(entries[..])[j], entries[..][j])
        invariant forall j :: 0 <= j < i ==> EntryDone(entries[j]) && (entries[j].delivered || entries[j].canceled)
      {
        ghost var es := entries[..];
        CancelEntry(i);
        forall j | 0 <= j < used
          ensures Settles(old(entries[..])[j], entries[..][j])
          ensures j < i ==> EntryDone(entries[j]) && (entries[j].delivered || entries[j].canceled) {
          assert Settles(es[j], entries[..][j]) && Settles(old(entries[..])[j], es[j]);
        }
        i := i + 1;
      }
      Open(entries[..], used, inflight, submitted, returned);
      AllReady(entries[..], used, inflight);
    }

    // opends_batch_destroy: no future of the batch is still in use when its memory goes.
    method Destroy()
      requires Valid()
      modifies entries, this`patience
      ensures Valid() && forall i :: 0 <= i < used ==> entries[i].failed || entries[i].future.done
      ensures Evolves(old(entries[..]), entries[..])
    {
      var i: nat := 0;
      while i < used
        invariant i <= used && Valid() && Evolves(old(entries[..]), entries[..])
        invariant forall j :: 0 <= j < i ==> entries[j].failed || entries[j].future.done
      {
        if !entries[i].failed {
          ghost var fs := entries[..];
          Await(i);
          EvolvesOn(old(entries[..]), fs, entries[..]);
          forall j | 0 <= j < used ensures EntryEvolves(fs[j], entries[j]) {
            assert EntryEvolves(fs[j], entries[..][j]);
          }
        }
        i := i + 1;
      }
    }
  }

  lemma OneMore(cookies: seq<nat>, i: nat, base: multiset<nat>)
    requires i < |cookies|
    ensures base + multiset(cookies[..i]) + multiset{cookies[i]} == base + multiset(cookies[..i + 1])
  {
    assert cookies[..i + 1] == cookies[..i] + [cookies[i]];
  }

  lemma InflightFits(es: seq<Entry>, used: nat, inflight: nat, submitted: multiset<nat>, returned: multiset<nat>)
    requires BatchOk(es, used, inflight, submitted, returned)
    ensures inflight <= used <= |es|
  {
    Open(es, used, inflight, submitted, returned);
    PendingAtMost(es, used);
  }

  lemma {:induction false} PendingAtMost(es: seq<Entry>, n: nat)
    requires n <= |es|
    ensures |Pending(es, n)| <= n
  {
    if n > 0 { PendingAtMost(es, n - 1); }
  }

  // When every entry is done, all that is in flight can be delivered.
  lemma {:induction false} AllReady(es: seq<Entry>, used: nat, inflight: nat)
    requires used <= |es| && inflight == |Pending(es, used)| && forall i :: 0 <= i < used ==> EntryDone(es[i])
    ensures ReadyIn(es, 0, used) == inflight
  {
    ReadyIsPending(es, used);
  }

  lemma {:induction false} ReadyIsPending(es: seq<Entry>, n: nat)
    requires n <= |es| && forall i :: 0 <= i < n ==> EntryDone(es[i])
    ensures ReadyIn(es, 0, n) == |Pending(es, n)|
  {
    if n > 0 { ReadyIsPending(es, n - 1); }
  }
}
