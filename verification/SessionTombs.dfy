/** tables.go: how long a tombstone answers. A history of the run says by which
    step each entry came and by which step its session ended; a passive entry
    answers the verdict of its end from then on for its TTL, and no longer. */
module SessionTombs {
  import opened SessionTable

  // ---- the history of an entry ----

  /** The end of e's own session, or any caller's end of a placeholder. */
  predicate Ends(s: State, step: Step, e: nat) {
    && step.End? && Held(s, e) && s.es[e].key == step.k && !s.es[e].tomb
    && (s.es[e].attached ==> s.es[e].sess == step.sess)
  }

  datatype Closing = Closing(at: int, v: nat)

  /** When e's session ended, and with which verdict. */
  function Ending(s: State, steps: seq<Step>, e: nat): Option<Closing>
    decreases |steps|
  {
    if steps == [] then None
    else
      var before, step := steps[..|steps| - 1], steps[|steps| - 1];
      if Ends(Exec(s, before), step, e) then Some(Closing(step.now, step.v)) else Ending(s, before, e)
  }

  /** The step that made entry e. */
  function Origin(s: State, steps: seq<Step>, e: nat): Option<Step>
    decreases |steps|
  {
    if steps == [] then None
    else
      var before := steps[..|steps| - 1];
      if |Exec(s, before).es| <= e < |Exec(s, steps).es| then Some(steps[|steps| - 1]) else Origin(s, before, e)
  }

  /** A passive entry that ends as a tombstone. */
  predicate Leaves(x: Entry) { !x.key.dialer && x.ttl > 0 }

  // ---- one step ----

  predicate SameFlags(x: Entry, y: Entry) {
    y.pending == x.pending && y.lingering == x.lingering && y.orphaned == x.orphaned
  }

  /** An entry keeps its session until it ends; a placeholder gets one by attach; and only calls of that session
      change what is noted of it. */
  predicate Owned(step: Step, x: Entry, y: Entry) {
    && (x.attached ==> y.attached && (y.tomb || y.sess == x.sess))
    && (!x.attached && y.attached ==> step == AttachTo(x.key, y.sess) && !x.tomb)
    && (SameFlags(x, y)
        || (step == Flags(x.key, x.sess, y.pending, y.lingering, y.orphaned) && x.attached && !x.tomb))
  }

  /** What a step does to an entry that exists. */
  predicate Moved(s: State, step: Step, x: Entry, y: Entry, e: nat) {
    && y.key == x.key && y.ttl == x.ttl && Owned(step, x, y)
    && (if Ends(s, step, e) then y.tomb && (Leaves(x) ==> y.expiry == step.now + x.ttl && y.verdict == step.v)
        else y.tomb == x.tomb && y.expiry == x.expiry && y.verdict == x.verdict)
  }

  /** The entry a step adds is what its call was given. */
  predicate Fresh(step: Step, x: Entry) {
    && !x.tomb
    && ((step.Insert? && x.key == step.k && x.ttl == step.ttl && x.sess == step.sess && x.attached)
        || (step.Place? && x.key == step.k && x.key.dialer && !x.attached))
  }

  lemma StepEntries(s: State, step: Step, e: nat)
    requires Inv(s)
    ensures var r := Do(s, step);
            && (e < |s.es| ==> e < |r.es| && Moved(s, step, s.es[e], r.es[e], e))
            && (|s.es| <= e < |r.es| ==> e == |s.es| && Fresh(step, r.es[e]))
  {
    hide Inv, Unexpired, Ended, Attach, InsertOrGet, PlaceDialer, PushTomb;
    match step
    case Insert(k, sess, ttl, now) =>
      if s.reserved > 0 { InsertEntries(s.(clock := Later(s.clock, now)), k, sess, ttl, now); }
    case Place(k) => if s.reserved > 0 { PlaceEntries(s, k); }
    case AttachTo(k, sess) => AttachEntries(s, k, sess, e);
    case Flags(k, _, _, _, _) => if Present(s, k) { PlacedKey(s, k); }
    case End(k, sess, v, now) => EndEntries(s, step, e);
    case Index(x, now) => PushEntries(s.(clock := Later(s.clock, now)), x, now);
    case _ =>
  }

  lemma PlacedKey(s: State, k: Key)
    requires Inv(s) && Present(s, k)
    ensures s.es[s.m[k]].key == k && Held(s, s.m[k])
    ensures !s.es[s.m[k]].attached ==> k.dialer
  {
    hide LiveCount;
  }

  lemma InsertEntries(s: State, k: Key, sess: nat, ttl: int, now: int)
    requires s.reserved > 0
    ensures var r := InsertOrGet(s, k, sess, ttl, now).0;
            r.es == s.es || r.es == s.es + [Live(k, ttl, sess)]
  {
  }

  lemma PlaceEntries(s: State, k: Key)
    requires s.reserved > 0
    ensures var r := PlaceDialer(s, k).0;
            r.es == s.es || r.es == s.es + [Entry(k, 0, 0, false, false, false, false, false, 0, 0, 0)]
  {
  }

  lemma AttachEntries(s: State, k: Key, sess: nat, e: nat)
    requires Inv(s)
    ensures var r := Attach(s, k, sess).0;
            |r.es| == |s.es| && (e < |s.es| ==> Moved(s, AttachTo(k, sess), s.es[e], r.es[e], e))
  {
    hide Inv;
    if Present(s, k) {
      PlacedKey(s, k);
      NotTomb(s, k);
    }
  }

  lemma PushEntries(s: State, x: nat, now: int)
    ensures PushTomb(s, x, now).es == s.es
  {
    hide Unexpired;
  }

  lemma EndEntries(s: State, step: Step, e: nat)
    requires Inv(s) && step.End?
    ensures var r := Do(s, step);
            |r.es| == |s.es| && (e < |s.es| ==> Moved(s, step, s.es[e], r.es[e], e))
  {
    hide Inv;
    if Present(s, step.k) { PlacedKey(s, step.k); }
  }

  // ---- every run ----

  /** What the history says of entry e. */
  ghost predicate Told(s: State, origin: Option<Step>, ending: Option<Closing>, e: nat) {
    if e < |s.es| then
      var x := s.es[e];
      && origin.Some? && (x.tomb <==> ending.Some?)
      && ((origin.value.Insert? && x.key == origin.value.k && x.ttl == origin.value.ttl
           && x.attached && (x.tomb || x.sess == origin.value.sess))
          || (origin.value.Place? && x.key == origin.value.k && x.key.dialer))
      && (ending.Some? && Leaves(x) ==> x.expiry == ending.value.at + x.ttl && x.verdict == ending.value.v)
    else origin.None? && ending.None?
  }

  lemma {:induction false} RunTold(maxUnits: nat, limit: nat, steps: seq<Step>, e: nat)
    ensures var s := Init(maxUnits, limit); Told(Exec(s, steps), Origin(s, steps, e), Ending(s, steps, e), e)
    decreases |steps|
  {
    hide Inv, Do;
    var s0 := Init(maxUnits, limit);
    if steps != [] {
      var before, step := steps[..|steps| - 1], steps[|steps| - 1];
      RunTold(maxUnits, limit, before, e);
      RunInv(maxUnits, limit, before);
      StepEntries(Exec(s0, before), step, e);
    }
  }

  /** A live entry ends exactly by the end of its own session, or by anyone's end while it is a placeholder; until
      then it keeps the session it was inserted with or that was attached, and only that one's calls change it. */
  lemma EndsOnlyOwn(maxUnits: nat, limit: nat, steps: seq<Step>, step: Step, e: nat)
    requires e < |Exec(Init(maxUnits, limit), steps).es|
    ensures var s := Exec(Init(maxUnits, limit), steps);
            var r := Do(s, step);
            && e < |r.es| && (!s.es[e].tomb && r.es[e].tomb <==> Ends(s, step, e))
            && Owned(step, s.es[e], r.es[e])
  {
    hide Inv, Do, Exec;
    RunInv(maxUnits, limit, steps);
    StepEntries(Exec(Init(maxUnits, limit), steps), step, e);
  }

  /** A passive session whose TTL, as it was inserted, is ttl and which ended at t: an insert of its key at now,
      clock <= now < t + ttl, gets its tombstone with the verdict of the end and changes nothing, unless the index's
      limit evicted it; from t + ttl on no insert gets it. */
  lemma TombstoneLasts(maxUnits: nat, limit: nat, steps: seq<Step>, e: nat, sess: nat, ttl: int, now: int)
    requires var s0 := Init(maxUnits, limit);
             && Origin(s0, steps, e).Some? && Origin(s0, steps, e).value.Insert? && Ending(s0, steps, e).Some?
             && !Origin(s0, steps, e).value.k.dialer && Origin(s0, steps, e).value.ttl > 0
             && Exec(s0, steps).reserved > 0
    ensures var s0 := Init(maxUnits, limit);
            var s, made, end := Exec(s0, steps), Origin(s0, steps, e).value, Ending(s0, steps, e).value;
            var (r, found, inserted) := InsertOrGet(s, made.k, sess, ttl, now);
            && e < |s.es|
            && (s.clock <= now < end.at + made.ttl && e !in s.evicted ==>
                  && !inserted && r == s && Held(s, e) && found == Some(s.es[e])
                  && s.es[e].tomb && s.es[e].verdict == end.v)
            && (now >= end.at + made.ttl ==> !Held(r, e) && (Held(s, e) ==> inserted))
  {
    hide Exec, Origin, Ending, LiveCount;
    var s0 := Init(maxUnits, limit);
    var s := Exec(s0, steps);
    RunTold(maxUnits, limit, steps, e);
    RunInv(maxUnits, limit, steps);
    var made, end := Origin(s0, steps, e).value, Ending(s0, steps, e).value;
    if s.clock <= now < end.at + made.ttl && e !in s.evicted {
      TombstoneAnswers(maxUnits, limit, steps, e, sess, ttl, now);
      assert Held(s, e);
    }
  }

  /** The limit takes the oldest: what a push evicts was indexed before all that stays, and the index is full. */
  lemma PushEvictsOldest(s: State, e: nat, now: int)
    requires Inv(s) && e in s.toPush
    ensures var r, q := PushTomb(s, e, now), s.index + [e];
            && (r.evicted != s.evicted ==> |r.index| == s.limit)
            && (forall x, y :: x in r.evicted - s.evicted && y in r.index ==>
                  exists i, j :: 0 <= i < j < |q| && q[i] == x && q[j] == y)
  {
    hide Inv, Unexpired;
    var live := Unexpired(s.es, s.index, now);
    var q, full := s.index + [e], live + [e];
    var r := PushTomb(s, e, now);
    var over := if |full| > s.limit then |full| - s.limit else 0;
    forall x, y | x in r.evicted - s.evicted && y in r.index
      ensures exists i, j :: 0 <= i < j < |q| && q[i] == x && q[j] == y
    {
      var i :| 0 <= i < over && full[i] == x;
      var j :| 0 <= j < |r.index| && r.index[j] == y;
      assert full[over + j] == y;
      InOrder(s.es, s.index, now, e, i, over + j);
    }
  }

  /** Unexpired keeps the order. */
  lemma {:induction false} UnexpiredOrder(es: seq<Entry>, q: seq<nat>, now: int, i: nat) returns (k: nat)
    requires i < |Unexpired(es, q, now)|
    ensures i <= k < |q| && q[k] == Unexpired(es, q, now)[i]
  {
    if q[0] < |es| && now < es[q[0]].expiry {
      if i == 0 {
        k := 0;
      } else {
        k := UnexpiredOrder(es, q[1..], now, i - 1);
        k := k + 1;
      }
    } else {
      k := UnexpiredOrder(es, q[1..], now, i);
      k := k + 1;
    }
  }

  lemma {:induction false} UnexpiredPair(es: seq<Entry>, q: seq<nat>, now: int, i: nat, j: nat) returns (k: nat, m: nat)
    requires i < j < |Unexpired(es, q, now)|
    ensures k < m < |q| && q[k] == Unexpired(es, q, now)[i] && q[m] == Unexpired(es, q, now)[j]
  {
    if q[0] < |es| && now < es[q[0]].expiry {
      if i == 0 {
        m := UnexpiredOrder(es, q[1..], now, j - 1);
        k, m := 0, m + 1;
      } else {
        k, m := UnexpiredPair(es, q[1..], now, i - 1, j - 1);
        k, m := k + 1, m + 1;
      }
    } else {
      k, m := UnexpiredPair(es, q[1..], now, i, j);
      k, m := k + 1, m + 1;
    }
  }

  lemma InOrder(es: seq<Entry>, q: seq<nat>, now: int, e: nat, i: nat, j: nat)
    requires i < j < |Unexpired(es, q, now) + [e]|
    ensures var full, all := Unexpired(es, q, now) + [e], q + [e];
            exists k, m :: 0 <= k < m < |all| && all[k] == full[i] && all[m] == full[j]
  {
    hide Unexpired;
    var live, all := Unexpired(es, q, now), q + [e];
    if j < |live| {
      var k, m := UnexpiredPair(es, q, now, i, j);
      assert all[k] == live[i] && all[m] == live[j];
    } else {
      var k := UnexpiredOrder(es, q, now, i);
      assert all[k] == live[i] && all[|q|] == e;
    }
  }
}
