/** tables.go: the session table. Each shard-lock region, each atomic unit
    operation and each index region is one step; entries are never freed, an
    entry's index stands for its pointer. The tombstone index is the sequence
    that TombIndex.Index is proved to be. */
module SessionTable {

  datatype Option<+T> = None | Some(value: T)

  datatype Key = Key(id: nat, dialer: bool)

  /** A live session, a dialer's placeholder (not attached) or a tombstone.
      released is history: how often its unit was given back. */
  datatype Entry = Entry(
    key: Key, ttl: int, sess: nat, attached: bool, pending: bool, lingering: bool, orphaned: bool,
    tomb: bool, verdict: nat, expiry: int, released: nat)

  /** toPush: ended, between the shard's unlock and the index; toDrop: left the
      index, still to be deleted from the shard. History: evicted are the entries
      the index's limit pushed out, clock is the latest time any call was given. */
  datatype State = State(
    maxUnits: nat, limit: nat, m: map<Key, nat>, es: seq<Entry>, units: int, reserved: nat,
    index: seq<nat>, toPush: set<nat>, toDrop: set<nat>, evicted: set<nat>, clock: int)

  function Init(maxUnits: nat, limit: nat): State {
    State(maxUnits, limit, map[], [], 0, 0, [], {}, {}, {}, 0)
  }

  function Later(a: int, b: int): int { if a < b then b else a }

  predicate Present(s: State, k: Key) { k in s.m && s.m[k] < |s.es| }

  /** getLocked: what k holds at now; an expired tombstone is deleted on the way. */
  function Get(s: State, k: Key, now: int): (State, Option<Entry>) {
    if !Present(s, k) then (s, None)
    else
      var e := s.es[s.m[k]];
      if !e.tomb || now < e.expiry then (s, Some(e)) else (s.(m := s.m - {k}), None)
  }

  function Add(s: State, e: Entry): State {
    s.(m := s.m[e.key := |s.es|], es := s.es + [e])
  }

  function Live(k: Key, ttl: int, sess: nat): Entry {
    Entry(k, ttl, sess, true, !k.dialer, false, false, false, 0, 0, 0)
  }

  /** insertOrGet; the caller holds a reservation, which an inserted entry consumes. */
  function InsertOrGet(s: State, k: Key, sess: nat, ttl: int, now: int): (State, Option<Entry>, bool)
    requires s.reserved > 0
  {
    var (s1, found) := Get(s, k, now);
    if found.Some? then (s1, found, false)
    else
      var e := Live(k, ttl, sess);
      (Add(s1, e).(reserved := s.reserved - 1), Some(e), true)
  }

  /** placeDialer's region, its unit reserved. */
  function PlaceDialer(s: State, k: Key): (State, bool)
    requires s.reserved > 0
  {
    if k in s.m then (s.(units := s.units - 1, reserved := s.reserved - 1), false)
    else (Add(s, Entry(k, 0, 0, false, false, false, false, false, 0, 0, 0)).(reserved := s.reserved - 1), true)
  }

  function Attach(s: State, k: Key, sess: nat): (State, bool) {
    if !Present(s, k) || s.es[s.m[k]].attached then (s, false)
    else (s.(es := s.es[s.m[k] := s.es[s.m[k]].(sess := sess, attached := true)]), true)
  }

  /** ended: the unit goes back; a passive entry becomes a tombstone answering v. */
  function Ended(s: State, k: Key, sess: nat, v: nat, now: int): (State, bool) {
    if !Present(s, k) then (s, false)
    else
      var i := s.m[k];
      var e := s.es[i];
      if e.tomb || (e.attached && e.sess != sess) then (s, false)
      else
        var t := e.(sess := 0, tomb := true, released := e.released + 1);
        if k.dialer || e.ttl <= 0 then
          (s.(es := s.es[i := t], units := s.units - 1, m := s.m - {k}), true)
        else
          (s.(es := s.es[i := t.(verdict := v, expiry := now + e.ttl)], units := s.units - 1, toPush := s.toPush + {i}),
           true)
  }

  // ---- the index ----

  function Unexpired(es: seq<Entry>, q: seq<nat>, now: int): seq<nat> {
    if q == [] then []
    else (if q[0] < |es| && now < es[q[0]].expiry then [q[0]] else []) + Unexpired(es, q[1..], now)
  }

  function Prune(s: State, now: int): State {
    s.(index := Unexpired(s.es, s.index, now),
       toDrop := s.toDrop + (set x | x in s.index && !(x < |s.es| && now < s.es[x].expiry)))
  }

  /** push of tombstone e: prune, add, and beyond the limit evict the oldest. */
  function PushTomb(s: State, e: nat, now: int): State {
    var s1 := Prune(s, now);
    var q := s1.index + [e];
    var over := if |q| > s.limit then |q| - s.limit else 0;
    var out := set x | x in q[..over];
    s1.(index := q[over..], toDrop := s1.toDrop + out, evicted := s.evicted + out, toPush := s.toPush - {e})
  }

  /** drop of e: the pointer comparison skips a newer entry of the key. */
  function Drop(s: State, e: nat): State {
    var s1 := s.(toDrop := s.toDrop - {e});
    if e < |s.es| && s.es[e].key in s.m && s.m[s.es[e].key] == e then s1.(m := s.m - {s.es[e].key}) else s1
  }

  // ---- steps and runs ----

  datatype Step =
    | Reserve
    | Unreserve
    | Insert(k: Key, sess: nat, ttl: int, now: int)
    | Place(k: Key)
    | AttachTo(k: Key, sess: nat)
    | Flags(k: Key, sess: nat, pending: bool, lingering: bool, orphaned: bool)
    | End(k: Key, sess: nat, v: nat, now: int)
    | Index(e: nat, now: int)
    | PruneIndex(now: int)
    | DropOne(e: nat)
    | Lookup(k: Key, now: int)

  function Do(s: State, step: Step): State {
    match step
    case Reserve => if s.units < s.maxUnits then s.(units := s.units + 1, reserved := s.reserved + 1) else s
    case Unreserve => if s.reserved > 0 then s.(units := s.units - 1, reserved := s.reserved - 1) else s
    case Insert(k, sess, ttl, now) =>
      if s.reserved > 0 then InsertOrGet(s.(clock := Later(s.clock, now)), k, sess, ttl, now).0 else s
    case Place(k) => if s.reserved > 0 && k.dialer then PlaceDialer(s, k).0 else s
    case AttachTo(k, sess) => Attach(s, k, sess).0
    case Flags(k, sess, p, l, o) =>
      if Present(s, k) && !s.es[s.m[k]].tomb && s.es[s.m[k]].attached && s.es[s.m[k]].sess == sess then
        s.(es := s.es[s.m[k] := s.es[s.m[k]].(pending := p, lingering := l, orphaned := o)])
      else s
    case End(k, sess, v, now) => Ended(s.(clock := Later(s.clock, now)), k, sess, v, now).0
    case Index(e, now) => if e in s.toPush then PushTomb(s.(clock := Later(s.clock, now)), e, now) else s
    case PruneIndex(now) => Prune(s.(clock := Later(s.clock, now)), now)
    case DropOne(e) => if e in s.toDrop then Drop(s, e) else s
    case Lookup(k, now) => Get(s.(clock := Later(s.clock, now)), k, now).0
  }

  function Exec(s: State, steps: seq<Step>): State
    decreases |steps|
  {
    if steps == [] then s else Do(Exec(s, steps[..|steps| - 1]), steps[|steps| - 1])
  }

  // ---- the invariant ----

  function Ind(b: bool): int { if b then 1 else 0 }

  function LiveCount(es: seq<Entry>): int {
    if es == [] then 0 else LiveCount(es[..|es| - 1]) + Ind(!es[|es| - 1].tomb)
  }

  lemma {:induction false} LiveUpdate(es: seq<Entry>, i: nat, e: Entry)
    requires i < |es|
    ensures LiveCount(es[i := e]) == LiveCount(es) - Ind(!es[i].tomb) + Ind(!e.tomb)
  {
    var n := |es| - 1;
    if i == n {
      assert es[i := e][..n] == es[..n];
    } else {
      LiveUpdate(es[..n], i, e);
      assert es[i := e][..n] == es[..n][i := e];
    }
  }

  lemma LiveAppend(es: seq<Entry>, e: Entry)
    ensures LiveCount(es + [e]) == LiveCount(es) + Ind(!e.tomb)
  {
    assert (es + [e])[..|es|] == es;
  }

  lemma {:induction false} LiveBounds(es: seq<Entry>)
    ensures 0 <= LiveCount(es) <= |es|
  {
    if es != [] { LiveBounds(es[..|es| - 1]); }
  }

  /** e is what its key holds. */
  predicate Held(s: State, e: nat) { e < |s.es| && s.es[e].key in s.m && s.m[s.es[e].key] == e }

  /** Every live entry is its key's one entry. */
  ghost predicate Placed(s: State) {
    && (forall k :: k in s.m ==> s.m[k] < |s.es| && s.es[s.m[k]].key == k)
    && (forall e :: 0 <= e < |s.es| && !s.es[e].tomb ==> Held(s, e))
    && (forall e :: 0 <= e < |s.es| && s.es[e].tomb && (s.es[e].key.dialer || s.es[e].ttl <= 0) ==> !Held(s, e))
    && (forall e :: 0 <= e < |s.es| && !s.es[e].attached ==> s.es[e].key.dialer)
  }

  ghost predicate Counted(s: State) {
    && s.units == LiveCount(s.es) + s.reserved <= s.maxUnits
    && (forall e :: 0 <= e < |s.es| ==> s.es[e].released == if s.es[e].tomb then 1 else 0)
  }

  predicate IsTomb(s: State, e: nat) { e < |s.es| && s.es[e].tomb }

  /** Every tombstone a shard holds is on its way into, in, or on its way out of the index. */
  ghost predicate Tracked(s: State) {
    && (forall x :: x in s.toPush || x in s.index || x in s.toDrop ==> IsTomb(s, x))
    && (forall e :: 0 <= e < |s.es| && s.es[e].tomb && Held(s, e) ==> e in s.toPush || e in s.index || e in s.toDrop)
    && |s.index| <= s.limit
  }

  predicate Past(s: State, e: nat) { e < |s.es| && s.es[e].expiry <= s.clock }

  /** A tombstone leaves its shard only expired or evicted. */
  ghost predicate Lasting(s: State) {
    && (forall e :: 0 <= e < |s.es| && s.es[e].tomb && !s.es[e].key.dialer && s.es[e].ttl > 0 ==>
          Held(s, e) || Past(s, e) || e in s.evicted)
    && (forall x :: x in s.toDrop ==> x in s.evicted || Past(s, x))
    && (forall x :: x in s.index || x in s.toPush ==> Held(s, x) || Past(s, x))
  }

  ghost predicate NoDup(q: seq<nat>) { forall i, j :: 0 <= i < j < |q| ==> q[i] != q[j] }

  /** No tombstone is in two of the lists, or in the index twice. */
  ghost predicate Once(s: State) {
    NoDup(s.index) && s.toPush !! s.toDrop && forall x :: x in s.index ==> x !in s.toPush && x !in s.toDrop
  }

  ghost predicate Inv(s: State) { Placed(s) && Counted(s) && Tracked(s) && Lasting(s) && Once(s) }

  // ---- one step at a time ----

  lemma TickInv(s: State, now: int)
    requires Inv(s)
    ensures Inv(s.(clock := Later(s.clock, now)))
  {
    hide LiveCount;
  }

  /** Deleting an expired tombstone on the way. */
  lemma GetInv(s: State, k: Key, now: int)
    requires Inv(s) && now <= s.clock
    ensures Inv(Get(s, k, now).0) && (Get(s, k, now).1.None? ==> k !in Get(s, k, now).0.m)
  {
    hide LiveCount;
  }

  lemma AddInv(s: State, e: Entry)
    requires Inv(s) && e.key !in s.m && s.reserved > 0 && !e.tomb && e.released == 0 && (!e.attached ==> e.key.dialer)
    ensures Inv(Add(s, e).(reserved := s.reserved - 1))
  {
    hide LiveCount;
    LiveAppend(s.es, e);
    var r := Add(s, e);
    assert forall x :: 0 <= x < |s.es| ==> r.es[x] == s.es[x];
    assert forall x :: 0 <= x < |s.es| && Held(s, x) ==> Held(r, x);
  }

  lemma AttachInv(s: State, i: nat, e: Entry)
    requires Inv(s) && i < |s.es| && !s.es[i].tomb
    requires e.key == s.es[i].key && e.tomb == s.es[i].tomb && e.released == s.es[i].released && e.ttl == s.es[i].ttl
    requires s.es[i].attached ==> e.attached
    ensures Inv(s.(es := s.es[i := e]))
  {
    hide LiveCount;
    LiveUpdate(s.es, i, e);
    var r := s.(es := s.es[i := e]);
    assert forall x :: 0 <= x < |s.es| ==> Held(r, x) == Held(s, x);
  }

  lemma EndedInv(s: State, k: Key, sess: nat, v: nat, now: int)
    requires Inv(s)
    ensures Inv(Ended(s, k, sess, v, now).0)
  {
    hide Inv;
    if Present(s, k) {
      var i := s.m[k];
      var e := s.es[i];
      if !(e.tomb || (e.attached && e.sess != sess)) {
        EntryOf(s, k);
        var t := e.(sess := 0, tomb := true, released := e.released + 1);
        if k.dialer || e.ttl <= 0 {
          EndGone(s, k, i, t);
        } else {
          EndTomb(s, k, i, t.(verdict := v, expiry := now + e.ttl));
        }
      }
    }
  }

  lemma EntryOf(s: State, k: Key)
    requires Inv(s) && Present(s, k)
    ensures var e := s.es[s.m[k]]; e.key == k && (!e.tomb ==> e.released == 0)
  {
    hide LiveCount;
  }

  lemma EndGone(s: State, k: Key, i: nat, t: Entry)
    requires Inv(s) && k in s.m && s.m[k] == i && i < |s.es| && !s.es[i].tomb && t.tomb && t.key == k
    requires t == s.es[i].(sess := 0, tomb := true, released := 1) && (k.dialer || t.ttl <= 0)
    ensures Inv(s.(es := s.es[i := t], units := s.units - 1, m := s.m - {k}))
  {
    hide LiveCount;
    LiveUpdate(s.es, i, t);
    var r := s.(es := s.es[i := t], units := s.units - 1, m := s.m - {k});
    assert forall x :: 0 <= x < |s.es| && x != i ==> r.es[x] == s.es[x] && Held(r, x) == Held(s, x);
  }

  lemma EndTomb(s: State, k: Key, i: nat, t: Entry)
    requires Inv(s) && k in s.m && s.m[k] == i && i < |s.es| && !s.es[i].tomb
    requires t == s.es[i].(sess := 0, tomb := true, released := 1, verdict := t.verdict, expiry := t.expiry)
    requires !k.dialer && t.ttl > 0
    ensures Inv(s.(es := s.es[i := t], units := s.units - 1, toPush := s.toPush + {i}))
  {
    hide LiveCount;
    LiveUpdate(s.es, i, t);
    var r := s.(es := s.es[i := t], units := s.units - 1, toPush := s.toPush + {i});
    assert forall x :: 0 <= x < |s.es| && x != i ==> r.es[x] == s.es[x];
    assert forall x :: 0 <= x < |s.es| ==> Held(r, x) == Held(s, x);
  }

  lemma {:induction false} UnexpiredOf(es: seq<Entry>, q: seq<nat>, now: int)
    ensures |Unexpired(es, q, now)| <= |q|
    ensures forall x :: x in Unexpired(es, q, now) <==> x in q && x < |es| && now < es[x].expiry
    ensures NoDup(q) ==> NoDup(Unexpired(es, q, now))
  {
    if q != [] {
      UnexpiredOf(es, q[1..], now);
      assert q == [q[0]] + q[1..];
    }
  }

  /** The lists may be rearranged as long as no tombstone is lost and what is
      dropped is evicted or past. */
  lemma ListsInv(s: State, r: State)
    requires Inv(s) && r == s.(index := r.index, toPush := r.toPush, toDrop := r.toDrop, evicted := r.evicted)
    requires |r.index| <= s.limit && s.evicted <= r.evicted && Once(r)
    requires forall x :: (x in r.toPush || x in r.index || x in r.toDrop)
                         == (x in s.toPush || x in s.index || x in s.toDrop)
    requires forall x :: x in r.index || x in r.toPush ==> x in s.index || x in s.toPush
    requires forall x :: x in r.toDrop ==> x in s.toDrop || x in r.evicted || Past(s, x)
    ensures Inv(r)
  {
    hide LiveCount, NoDup;
    assert forall e :: 0 <= e < |s.es| ==> Held(r, e) == Held(s, e);
  }

  lemma InvLists(s: State)
    requires Inv(s)
    ensures |s.index| <= s.limit && Once(s) && forall x :: x in s.index || x in s.toPush || x in s.toDrop ==> x < |s.es|
  {
    hide LiveCount, Placed, Counted, Lasting, Once;
  }

  lemma PruneInv(s: State, now: int)
    requires Inv(s) && now <= s.clock
    ensures Inv(Prune(s, now))
  {
    hide LiveCount, Unexpired, Inv, NoDup;
    UnexpiredOf(s.es, s.index, now);
    InvLists(s);
    ListsInv(s, Prune(s, now));
  }

  lemma Cut(q: seq<nat>, k: nat)
    requires k <= |q| && NoDup(q)
    ensures NoDup(q[k..]) && forall x :: x in q <==> x in q[..k] || x in q[k..]
    ensures forall x :: x in q[k..] ==> x !in q[..k]
  {
    assert q == q[..k] + q[k..];
  }

  lemma PushInv(s: State, e: nat, now: int)
    requires Inv(s) && e in s.toPush && now <= s.clock
    ensures Inv(PushTomb(s, e, now))
  {
    hide LiveCount, Unexpired, Inv, Prune, NoDup;
    PruneInv(s, now);
    PruneKeeps(s, now);
    var s1 := Prune(s, now);
    InvLists(s1);
    var q := s1.index + [e];
    var over := if |q| > s.limit then |q| - s.limit else 0;
    OneMore(s1.index, e);
    Cut(q, over);
    ListsInv(s1, PushTomb(s, e, now));
  }

  lemma OneMore(q: seq<nat>, e: nat)
    requires NoDup(q) && e !in q
    ensures NoDup(q + [e]) && forall x :: x in q + [e] <==> x in q || x == e
  {
  }

  lemma PruneKeeps(s: State, now: int)
    ensures Prune(s, now) == s.(index := Prune(s, now).index, toDrop := Prune(s, now).toDrop)
  {
  }

  lemma DropInv(s: State, e: nat)
    requires Inv(s) && e in s.toDrop
    ensures Inv(Drop(s, e))
  {
    hide LiveCount, NoDup;
    var r := Drop(s, e);
    assert forall x :: 0 <= x < |s.es| && x != e ==> Held(r, x) == Held(s, x);
  }

  lemma StepInv(s: State, step: Step)
    requires Inv(s)
    ensures Inv(Do(s, step))
  {
    hide Inv, Get, Add, Ended, PushTomb, Prune, Drop, LiveCount;
    match step
    case Reserve => UnitsInv(s, 1);
    case Unreserve => if s.reserved > 0 { UnitsInv(s, -1); }
    case Insert(k, sess, ttl, now) =>
      if s.reserved > 0 { InsertInv(s, k, sess, ttl, now); }
    case Place(k) => if s.reserved > 0 && k.dialer { PlaceInv(s, k); }
    case AttachTo(k, sess) => UpdateInv(s, step);
    case Flags(k, sess, p, l, o) => UpdateInv(s, step);
    case End(k, sess, v, now) =>
      TickInv(s, now);
      EndedInv(s.(clock := Later(s.clock, now)), k, sess, v, now);
    case Index(e, now) =>
      TickInv(s, now);
      if e in s.toPush { PushInv(s.(clock := Later(s.clock, now)), e, now); }
    case PruneIndex(now) =>
      TickInv(s, now);
      PruneInv(s.(clock := Later(s.clock, now)), now);
    case DropOne(e) => if e in s.toDrop { DropInv(s, e); }
    case Lookup(k, now) =>
      TickInv(s, now);
      GetInv(s.(clock := Later(s.clock, now)), k, now);
  }

  lemma UnitsInv(s: State, d: int)
    requires Inv(s) && s.reserved + d >= 0
    ensures s.units + d <= s.maxUnits ==> Inv(s.(units := s.units + d, reserved := s.reserved + d))
    ensures s.reserved > 0 ==> s.units - 1 <= s.maxUnits
  {
    hide LiveCount, NoDup;
  }

  lemma InsertInv(s: State, k: Key, sess: nat, ttl: int, now: int)
    requires Inv(s) && s.reserved > 0
    ensures Inv(Do(s, Insert(k, sess, ttl, now)))
  {
    hide Inv, Add, LiveCount;
    TickInv(s, now);
    var s0 := s.(clock := Later(s.clock, now));
    GetInv(s0, k, now);
    GetKeeps(s0, k, now);
    var (s1, found) := Get(s0, k, now);
    if found.None? { AddInv(s1, Live(k, ttl, sess)); }
  }

  lemma GetKeeps(s: State, k: Key, now: int)
    ensures Get(s, k, now).0 == s.(m := Get(s, k, now).0.m)
  {
  }

  lemma PlaceInv(s: State, k: Key)
    requires Inv(s) && s.reserved > 0 && k.dialer
    ensures Inv(PlaceDialer(s, k).0)
  {
    hide Inv, Add, LiveCount;
    UnitsInv(s, -1);
    if k !in s.m { AddInv(s, Entry(k, 0, 0, false, false, false, false, false, 0, 0, 0)); }
  }

  lemma UpdateInv(s: State, step: Step)
    requires Inv(s) && (step.AttachTo? || step.Flags?)
    ensures Inv(Do(s, step))
  {
    hide LiveCount, NoDup, Get, Add, Ended, PushTomb, Prune, Drop;
    var r := Do(s, step);
    if Present(s, step.k) && r != s {
      var i := s.m[step.k];
      NotTomb(s, step.k);
      AttachInv(s, i, r.es[i]);
    }
  }

  /** An entry that is not attached is a placeholder, never a tombstone its key holds. */
  lemma NotTomb(s: State, k: Key)
    requires Inv(s) && Present(s, k)
    ensures !s.es[s.m[k]].attached ==> !s.es[s.m[k]].tomb
  {
    hide LiveCount, NoDup;
  }

  lemma StepLimits(s: State, step: Step)
    ensures Do(s, step).maxUnits == s.maxUnits && Do(s, step).limit == s.limit
  {
    hide Unexpired;
  }

  lemma {:induction false} RunInv(maxUnits: nat, limit: nat, steps: seq<Step>)
    ensures Inv(Exec(Init(maxUnits, limit), steps))
    ensures Exec(Init(maxUnits, limit), steps).maxUnits == maxUnits && Exec(Init(maxUnits, limit), steps).limit == limit
    decreases |steps|
  {
    hide Inv, Do;
    if steps == [] {
      InitInv(maxUnits, limit);
    } else {
      RunInv(maxUnits, limit, steps[..|steps| - 1]);
      StepInv(Exec(Init(maxUnits, limit), steps[..|steps| - 1]), steps[|steps| - 1]);
      StepLimits(Exec(Init(maxUnits, limit), steps[..|steps| - 1]), steps[|steps| - 1]);
    }
  }

  lemma InitInv(maxUnits: nat, limit: nat)
    ensures Inv(Init(maxUnits, limit))
  {
  }

  // ---- what every run shows ----

  /** Units: live entries (placeholders included) plus outstanding reservations,
      within 0..maxUnits; each entry's unit is released exactly when it ends, once. */
  lemma UnitsConserved(maxUnits: nat, limit: nat, steps: seq<Step>)
    ensures var s := Exec(Init(maxUnits, limit), steps);
            && 0 <= s.units == LiveCount(s.es) + s.reserved <= maxUnits
            && forall e :: 0 <= e < |s.es| ==> s.es[e].released == if s.es[e].tomb then 1 else 0
  {
    hide Exec, LiveCount;
    RunInv(maxUnits, limit, steps);
    LiveBounds(Exec(Init(maxUnits, limit), steps).es);
  }

  /** At most one live session per key. */
  lemma OneLivePerKey(maxUnits: nat, limit: nat, steps: seq<Step>, a: nat, b: nat)
    requires var es := Exec(Init(maxUnits, limit), steps).es;
             a < |es| && b < |es| && !es[a].tomb && !es[b].tomb && es[a].key == es[b].key
    ensures a == b
  {
    hide Exec, LiveCount;
    RunInv(maxUnits, limit, steps);
    var s := Exec(Init(maxUnits, limit), steps);
    assert Held(s, a) && Held(s, b);
  }

  /** After a passive end no insert for the key succeeds before the tombstone
      expires, unless the index's limit evicted it: the insert gets the tombstone. */
  lemma TombstoneAnswers(maxUnits: nat, limit: nat, steps: seq<Step>, e: nat, sess: nat, ttl: int, now: int)
    requires var s := Exec(Init(maxUnits, limit), steps);
             e < |s.es| && s.es[e].tomb && !s.es[e].key.dialer && s.es[e].ttl > 0 && e !in s.evicted
             && s.clock <= now < s.es[e].expiry && s.reserved > 0
    ensures var s := Exec(Init(maxUnits, limit), steps);
            var (r, found, inserted) := InsertOrGet(s, s.es[e].key, sess, ttl, now);
            !inserted && r == s && found == Some(s.es[e])
  {
    hide Exec, LiveCount;
    RunInv(maxUnits, limit, steps);
    var s := Exec(Init(maxUnits, limit), steps);
    assert Held(s, e);
  }

  /** counts: with no push or drop in progress, once the index was pruned at the
      latest time the shards' tombstones are exactly the indexed ones. */
  lemma IndexedAreHeld(maxUnits: nat, limit: nat, steps: seq<Step>, now: int, e: nat)
    requires var s := Exec(Init(maxUnits, limit), steps);
             s.toPush == {} && s.toDrop == {} && s.clock <= now && e < |s.es| && s.es[e].tomb
             && forall x :: x in s.index ==> x < |s.es| && now < s.es[x].expiry
    ensures var s := Exec(Init(maxUnits, limit), steps);
            Held(s, e) <==> e in s.index
  {
    hide Exec, LiveCount;
    RunInv(maxUnits, limit, steps);
  }

  /** drop deletes no live entry, and an entry of the key that is not e stays. */
  lemma DropSparesOthers(s: State, e: nat, x: nat)
    requires Inv(s) && e in s.toDrop && x < |s.es| && x != e && Held(s, x)
    ensures Held(Drop(s, e), x)
    ensures s.es[e].tomb
  {
    hide LiveCount;
  }

  /** prune takes exactly the expired tombstones out of the index, in order. */
  lemma PruneExact(s: State, now: int, x: nat)
    requires Inv(s)
    ensures x in Prune(s, now).index <==> x in s.index && x < |s.es| && now < s.es[x].expiry
    ensures x in s.index && !(x < |s.es| && now < s.es[x].expiry) ==> x in Prune(s, now).toDrop
    ensures |Prune(s, now).index| <= s.limit
  {
    hide LiveCount, Unexpired;
    UnexpiredOf(s.es, s.index, now);
  }

  // ---- the table as it is written ----

  /** sessionTable's regions, each proved to be the transition of its name. */
  class Table {
    const maxUnits: nat
    const limit: nat
    var m: map<Key, nat>
    var es: seq<Entry>
    var units: int
    var reserved: nat
    var index: seq<nat>
    var toPush: set<nat>
    var toDrop: set<nat>
    var evicted: set<nat>
    var clock: int

    ghost function Snap(): State
      reads this
    {
      State(maxUnits, limit, m, es, units, reserved, index, toPush, toDrop, evicted, clock)
    }

    ghost predicate Valid()
      reads this
    {
      Inv(Snap())
    }

    constructor (maxUnits: nat, limit: nat)
      ensures Snap() == Init(maxUnits, limit) && Valid()
    {
      this.maxUnits, this.limit := maxUnits, limit;
      m, es, units, reserved, index, toPush, toDrop, evicted, clock := map[], [], 0, 0, [], {}, {}, {}, 0;
      new;
      InitInv(maxUnits, limit);
    }

    /** reserve: a compare-and-swap below the limit. */
    method Reserve() returns (ok: bool)
      requires Valid()
      modifies this
      ensures Snap() == Do(old(Snap()), Step.Reserve) && Valid() && (ok <==> old(units) < maxUnits)
    {
      hide Inv;
      StepInv(Snap(), Step.Reserve);
      ok := units < maxUnits;
      if ok { units, reserved := units + 1, reserved + 1; }
    }

    method GetLocked(k: Key, now: int) returns (found: Option<Entry>)
      requires Valid()
      modifies this`m
      ensures (Snap(), found) == Get(old(Snap()), k, now)
    {
      if k !in m { return None; }
      var e := es[m[k]];
      if !e.tomb { return Some(e); }
      if now < e.expiry { return Some(e); }
      m := m - {k};
      return None;
    }

    method InsertSession(k: Key, sess: nat, ttl: int, now: int) returns (found: Option<Entry>, inserted: bool)
      requires Valid() && reserved > 0
      modifies this
      ensures (Snap(), found, inserted) == InsertOrGet(old(Snap()), k, sess, ttl, now)
    {
      hide Inv;
      found := GetLocked(k, now);
      if found.Some? { return found, false; }
      var e := Entry(k, ttl, sess, true, !k.dialer, false, false, false, 0, 0, 0);
      m := m[k := |es|];
      es := es + [e];
      reserved := reserved - 1;
      return Some(e), true;
    }

    /** placeDialer: the reservation, then the shard's region. */
    method PlaceSession(k: Key) returns (ok: bool)
      requires Valid() && k.dialer
      modifies this
      ensures Valid()
      ensures ok <==> old(units) < maxUnits && k !in old(m)
      ensures Snap() == if old(units) < maxUnits then Do(Do(old(Snap()), Step.Reserve), Place(k)) else old(Snap())
    {
      hide Inv;
      ok := Reserve();
      if !ok { return; }
      StepInv(Snap(), Place(k));
      if k in m {
        units, reserved := units - 1, reserved - 1;
        return false;
      }
      m := m[k := |es|];
      es := es + [Entry(k, 0, 0, false, false, false, false, false, 0, 0, 0)];
      reserved := reserved - 1;
    }

    method AttachSession(k: Key, sess: nat) returns (ok: bool)
      requires Valid()
      modifies this
      ensures (Snap(), ok) == Attach(old(Snap()), k, sess) && Valid()
    {
      StepInv(Snap(), AttachTo(k, sess));
      PresentIn(Snap(), k);
      hide Inv;
      if k !in m || es[m[k]].attached { return false; }
      es := es[m[k] := es[m[k]].(sess := sess, attached := true)];
      return true;
    }

    method EndSession(k: Key, sess: nat, v: nat, now: int) returns (ok: bool)
      requires Valid()
      modifies this
      ensures (Snap(), ok) == Ended(old(Snap()), k, sess, v, now)
    {
      PresentIn(Snap(), k);
      hide Inv;
      if k !in m { return false; }
      var i := m[k];
      if es[i].tomb || (es[i].attached && es[i].sess != sess) { return false; }
      units := units - 1;
      es := es[i := es[i].(sess := 0, tomb := true, released := es[i].released + 1)];
      if k.dialer || es[i].ttl <= 0 {
        m := m - {k};
        assert es == old(es)[i := es[i]];
        return true;
      }
      es := es[i := es[i].(verdict := v, expiry := now + es[i].ttl)];
      assert es == old(es)[i := es[i]];
      toPush := toPush + {i};
      return true;
    }
  }

  lemma PresentIn(s: State, k: Key)
    requires Inv(s)
    ensures k in s.m ==> Present(s, k)
  {
    hide LiveCount;
  }
}
