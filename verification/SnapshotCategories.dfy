/** tables.go, `counts`, category by category: in a read that passes its test
    every counter is the number of sessions of its own category at an instant
    inside the read, and one instant serves all four unless sessions came
    meanwhile. */
module SnapshotCategories {
  import opened Snapshot

  /** How many counters a read has got. */
  function Got(pc: Pc): nat {
    match pc
    case GotOpen => 1
    case GotPending => 2
    case GotLingering => 3
    case GotAll => 4
    case SecondIdle => 4
    case Validated => 4
    case _ => 0
  }

  /** The order in which they are read. */
  function Turn(c: Category): nat {
    match c
    case None => 5
    case Open => 1
    case Pending => 2
    case Lingering => 3
    case Orphaned => 4
  }

  /** The counter of category c is read by then. */
  predicate HasRead(pc: Pc, c: Category) { Got(pc) >= Turn(c) }

  /** No move overlapped the read so far. */
  predicate Undisturbed(s: State) { (Reading(s.pc) || s.pc == SecondIdle || s.pc == Validated) && s.idle && !s.touched }

  function InCategory(t: nat, steps: seq<Step>, k: nat, c: Category): int
    requires k <= |steps|
  {
    Num(Exec(t, steps[..k]).ss, InCat(c))
  }

  /** There are x sessions in category c at an instant from step `from` on. */
  ghost predicate AtInstant(t: nat, steps: seq<Step>, from: nat, c: Category, x: int) {
    exists k :: from <= k <= |steps| && x == InCategory(t, steps, k, c)
  }

  /** The four counters are the sessions of their categories after k steps. */
  ghost predicate AllAt(t: nat, steps: seq<Step>, k: nat, got: Cnt)
    requires k <= |steps|
  {
    forall c :: c != None ==> got.Get(c) == InCategory(t, steps, k, c)
  }

  // ---- one step of a read ----

  /** A step of another goroutine leaves the read where it is. */
  lemma OthersKeep(s: State, step: Step)
    requires !step.Read?
    ensures var r := Do(s, step);
            r.pc == s.pc && r.got == s.got && r.idle == s.idle && r.began == s.began && (s.touched ==> r.touched)
  {
    hide Num, Base;
    BaseKeeps(s, step);
  }

  lemma BaseKeeps(s: State, step: Step)
    requires !step.Read?
    ensures var r := Base(s, step);
            r.pc == s.pc && r.got == s.got && r.idle == s.idle && r.began == s.began && r.touched == s.touched
  {
    hide Categorize, Changed, Cnt.Add;
  }

  /** A step of the read: the counter it reads is the sessions of its category. */
  lemma ReadKeeps(s: State, c: Category)
    requires Inv(s) && c != None && Undisturbed(Do(s, Read)) && HasRead(Do(s, Read).pc, c)
    ensures var r := Do(s, Read);
            && Undisturbed(s) && r.began == s.began && r.ss == s.ss
            && r.got.Get(c) == if HasRead(s.pc, c) then s.got.Get(c) else Num(s.ss, InCat(c))
  {
    hide Num, Do, Counters, Shows;
    DoRead(s);
    if s.moving == 0 { AtRest(s); }
  }

  /** Category by category: the counter returned is the number of sessions of its category at an instant inside the
      read. */
  lemma {:induction false} CategoryAtInstant(t: nat, steps: seq<Step>, c: Category)
    requires c != None && Undisturbed(Exec(t, steps)) && HasRead(Exec(t, steps).pc, c)
    ensures AtInstant(t, steps, Exec(t, steps).began, c, Exec(t, steps).got.Get(c))
    decreases |steps|
  {
    hide Num, Do, Inv, Undisturbed, HasRead;
    if steps == [] {
      NothingRead(t, c);
    } else {
      var n := |steps| - 1;
      var before, s := Exec(t, steps[..n]), Exec(t, steps);
      Times(t, steps[..n]);
      RunInv(t, steps[..n]);
      if steps[n].Read? {
        ReadKeeps(before, c);
      } else {
        OthersKeep(before, steps[n]);
        StaysUndisturbed(before, s);
      }
      if HasRead(before.pc, c) {
        CategoryAtInstant(t, steps[..n], c);
        var k :| before.began <= k <= n && before.got.Get(c) == InCategory(t, steps[..n], k, c);
        assert steps[..n][..k] == steps[..k];
        assert s.got.Get(c) == InCategory(t, steps, k, c);
      } else {
        assert s.got.Get(c) == InCategory(t, steps, n, c);
      }
    }
  }

  lemma NothingRead(t: nat, c: Category)
    ensures !HasRead(Exec(t, []).pc, c)
  {
  }

  lemma StaysUndisturbed(s: State, r: State)
    requires r.pc == s.pc && r.idle == s.idle && (s.touched ==> r.touched) && Undisturbed(r)
    ensures Undisturbed(s)
  {
  }

  // ---- one instant for all four ----

  /** A step that is neither an insert nor an attach, and moves no session, changes no category. */
  lemma SameCategories(s: State, step: Step, c: Category)
    requires !step.Read? && !step.Insert? && !step.Attach? && c != None
    requires !Moves(s, Base(s, step), step)
    ensures Num(Base(s, step).ss, InCat(c)) == Num(s.ss, InCat(c))
  {
    hide Num, Cnt.Add, Moves, Base;
    match step
    case Place => PlaceSame(s, c);
    case Update(i, f) => UpdateSame(s, i, f, c);
    case End(i) => EndSame(s, i, c);
    case Advance(i) => AdvanceSame(s, i);
  }

  lemma PlaceSame(s: State, c: Category)
    requires c != None
    ensures Num(Base(s, Place).ss, InCat(c)) == Num(s.ss, InCat(c))
  {
    hide Num;
    NumAppend(s.ss, Sess(false, false, false, false, false, Still), InCat(c));
  }

  lemma UpdateSame(s: State, i: nat, f: Change, c: Category)
    requires c != None && !Moves(s, Base(s, Update(i, f)), Update(i, f))
    ensures Num(Base(s, Update(i, f)).ss, InCat(c)) == Num(s.ss, InCat(c))
  {
    hide Num, Categorize;
    if Free(s, i) && s.ss[i].attached {
      ChangedStill(s.ss[i], f);
      NumUpdate(s.ss, i, Changed(s.ss[i], f), InCat(c));
    }
  }

  lemma ChangedStill(x: Sess, f: Change)
    ensures Changed(x, f).move == x.move
  {
  }

  lemma EndSame(s: State, i: nat, c: Category)
    requires c != None && !Moves(s, Base(s, End(i)), End(i))
    ensures Num(Base(s, End(i)).ss, InCat(c)) == Num(s.ss, InCat(c))
  {
    hide Num;
    if Free(s, i) { NumUpdate(s.ss, i, s.ss[i].(tomb := true), InCat(c)); }
  }

  lemma AdvanceSame(s: State, i: nat)
    requires !Moves(s, Base(s, Advance(i)), Advance(i))
    ensures Base(s, Advance(i)) == s
  {
    hide Cnt.Add;
  }

  lemma OthersSame(s: State, step: Step, c: Category)
    requires !step.Read? && !step.Insert? && !step.Attach? && c != None && Reading(s.pc) && !Do(s, step).touched
    ensures Num(Do(s, step).ss, InCat(c)) == Num(s.ss, InCat(c))
  {
    hide Num, Base;
    MovesApart(s, step);
    SameCategories(s, step, c);
  }

  lemma MovesApart(s: State, step: Step)
    requires !step.Read? && Reading(s.pc) && !Do(s, step).touched
    ensures !Moves(s, Base(s, step), step) && Do(s, step).ss == Base(s, step).ss
  {
    hide Num, Base;
  }

  /** Neither an insert nor an attach from step k to step m. */
  ghost predicate NoneCame(steps: seq<Step>, k: nat, m: nat) {
    forall i :: k <= i < m && i < |steps| ==> !steps[i].Insert? && !steps[i].Attach?
  }

  /** While the counters are read and no session comes, those read stay what the categories are. */
  lemma {:induction false} CategoriesStay(t: nat, steps: seq<Step>, c: Category)
    requires c != None && Undisturbed(Exec(t, steps)) && Reading(Exec(t, steps).pc) && HasRead(Exec(t, steps).pc, c)
    requires NoneCame(steps, Exec(t, steps).began, |steps|)
    ensures Exec(t, steps).got.Get(c) == Num(Exec(t, steps).ss, InCat(c))
    decreases |steps|
  {
    hide Num, Do, Inv, HasRead;
    if steps == [] {
      NothingRead(t, c);
    } else {
      var n := |steps| - 1;
      var before, s := Exec(t, steps[..n]), Exec(t, steps);
      Times(t, steps[..n]);
      RunInv(t, steps[..n]);
      if steps[n].Read? {
        ReadKeeps(before, c);
        if HasRead(before.pc, c) { ReadingBefore(before, c); }
      } else {
        OthersKeep(before, steps[n]);
        OthersSame(before, steps[n], c);
      }
      if HasRead(before.pc, c) {
        assert NoneCame(steps[..n], before.began, n);
        CategoriesStay(t, steps[..n], c);
      }
    }
  }

  lemma ReadingBefore(s: State, c: Category)
    requires HasRead(s.pc, c) && Reading(Do(s, Read).pc)
    ensures Reading(s.pc)
  {
    hide Num;
  }

  /** How many steps it took until the last counter was read. */
  function LastCounter(t: nat, steps: seq<Step>): (k: nat)
    ensures k <= |steps|
    decreases |steps|
  {
    if steps == [] then 0
    else
      var before := steps[..|steps| - 1];
      if Exec(t, steps).pc == GotAll && Exec(t, before).pc == GotLingering then |steps| else LastCounter(t, before)
  }

  /** From the last counter on the read keeps what it got. */
  lemma {:induction false} AllGot(t: nat, steps: seq<Step>)
    requires Undisturbed(Exec(t, steps)) && HasRead(Exec(t, steps).pc, Orphaned)
    ensures var s, m := Exec(t, steps), Exec(t, steps[..LastCounter(t, steps)]);
            m.pc == GotAll && Undisturbed(m) && m.got == s.got && m.began == s.began
    decreases |steps|
  {
    hide Num, Do, Inv;
    if steps != [] {
      var n := |steps| - 1;
      var before, s := Exec(t, steps[..n]), Exec(t, steps);
      RunInv(t, steps[..n]);
      assert steps[..|steps|] == steps;
      if steps[n].Read? {
        ReadKeeps(before, Orphaned);
        LaterKeeps(before);
      } else {
        OthersKeep(before, steps[n]);
      }
      if HasRead(before.pc, Orphaned) {
        AllGot(t, steps[..n]);
        assert steps[..n][..LastCounter(t, steps[..n])] == steps[..LastCounter(t, steps[..n])];
      }
    }
  }

  lemma LaterKeeps(s: State)
    requires HasRead(Do(s, Read).pc, Orphaned)
    ensures HasRead(s.pc, Orphaned) ==> Do(s, Read).got == s.got && (Do(s, Read).pc == GotAll ==> s.pc != GotLingering)
    ensures !HasRead(s.pc, Orphaned) ==> s.pc == GotLingering && Do(s, Read).pc == GotAll
  {
    hide Num;
  }

  /** A read that passes its test: each counter is the number of sessions of its category at an instant after the
      read found no move in progress and before it returned; and the same instant serves all four when no session
      was inserted or attached between that and the last counter. */
  lemma CategoriesAreASnapshot(t: nat, steps: seq<Step>, s: State)
    requires After(t, steps, s) && s.pc == Validated
    ensures forall c :: c != None ==> AtInstant(t, steps, s.began, c, s.got.Get(c))
    ensures NoneCame(steps, s.began, LastCounter(t, steps)) ==>
              exists k :: s.began <= k <= |steps| && AllAt(t, steps, k, s.got)
  {
    hide Num, Exec, Inv, InCategory;
    RunInv(t, steps);
    ValidatedQuiet(s);
    forall c | c != None ensures AtInstant(t, steps, s.began, c, s.got.Get(c)) { CategoryAtInstant(t, steps, c); }
    if NoneCame(steps, s.began, LastCounter(t, steps)) {
      var k := LastCounter(t, steps);
      AllGot(t, steps);
      Times(t, steps[..k]);
      forall c | c != None ensures s.got.Get(c) == InCategory(t, steps, k, c) {
        assert NoneCame(steps[..k], s.began, k);
        CategoriesStay(t, steps[..k], c);
        Counted(t, steps, k, c);
      }
      assert s.began <= k <= |steps| && AllAt(t, steps, k, s.got);
    }
  }

  lemma Counted(t: nat, steps: seq<Step>, k: nat, c: Category)
    requires k <= |steps|
    ensures InCategory(t, steps, k, c) == Num(Exec(t, steps[..k]).ss, InCat(c))
  {
    hide Num, Exec;
  }

  lemma ValidatedQuiet(s: State)
    requires Inv(s) && s.pc == Validated
    ensures Undisturbed(s) && forall c :: c != None ==> HasRead(s.pc, c)
  {
    hide Counters;
  }
}
