/**
 Histories of installs that may be cut short anywhere: between any two operations on the file system, or while the
 backup is written.

 Whatever was interrupted, links that nobody asked for stay, links that were there are never missing, and the backup
 tells what was there first or is torn.  Installing the same target again completes the work; another target may not.
 */
module LinkRecovery {
  import opened Prelude
  import opened LinkInstaller

  /** One use of the installer: it gets through `done` operations, or dies while it writes the backup. */
  datatype Attempt = Attempt(wishes: seq<Wish>, done: nat, torn: bool)

  predicate Refused(d: Disk, wishes: seq<Wish>) {
    exists i :: 0 <= i < |wishes| && Blocked(d, wishes[i])
  }

  function Take(ops: seq<Op>, n: nat): seq<Op> { if n <= |ops| then ops[..n] else ops }

  predicate Tears(resolve: string -> string, d: Disk, a: Attempt) {
    a.torn && !Refused(d, a.wishes) && Program(resolve, d, a.wishes) != [] && d.backup.None?
  }

  function After(resolve: string -> string, d: Disk, a: Attempt): Disk {
    if Refused(d, a.wishes) then d
    else if Tears(resolve, d, a) then d.(backup := Some(Torn))
    else Run(d, Take(Program(resolve, d, a.wishes), a.done)).disk
  }

  function AfterAll(resolve: string -> string, d: Disk, attempts: seq<Attempt>): Disk {
    if attempts == [] then d
    else After(resolve, AfterAll(resolve, d, attempts[..|attempts| - 1]), attempts[|attempts| - 1])
  }

  // ------------------------------------------------------------------ only the requested links change

  predicate SameAt(a: Disk, b: Disk, n: string) {
    && (n in a.entries <==> n in b.entries)
    && (n in a.entries ==> a.entries[n] == b.entries[n])
  }

  predicate Touches(op: Op, n: string) {
    !op.Save? && (n == op.name || n == Tmp(op.name))
  }

  lemma {:induction false} RunTouches(d: Disk, ops: seq<Op>, n: string)
    requires forall op | op in ops :: !Touches(op, n)
    ensures SameAt(d, Run(d, ops).disk, n)
    decreases |ops|
  {
    if ops != [] && Exec(d, ops[0]).Some? {
      assert !Touches(ops[0], n);
      RunTouches(Exec(d, ops[0]).value, ops[1..], n);
    }
  }

  predicate Requested(wishes: seq<Wish>, n: string) {
    exists w :: w in wishes && (n == w.name || n == Tmp(w.name))
  }

  lemma {:induction false} SwapsTouch(changes: seq<Wish>, op: Op)
    requires op in Swaps(changes)
    ensures !op.Save? && exists w :: w in changes && op.name == w.name
  {
    var w := changes[0];
    if op in Swaps(changes[1..]) {
      SwapsTouch(changes[1..], op);
    } else {
      assert w in changes && op.name == w.name;
    }
  }

  lemma {:induction false} ChangesAreWishes(resolve: string -> string, d: Disk, wishes: seq<Wish>)
    ensures forall w | w in Changes(resolve, d, wishes) :: w in wishes && !PointsAt(resolve, d, w)
  {
    if wishes != [] { ChangesAreWishes(resolve, d, wishes[1..]); }
  }

  lemma ProgramTouches(resolve: string -> string, d: Disk, wishes: seq<Wish>, n: string, op: Op)
    requires !Requested(wishes, n) && op in Program(resolve, d, wishes)
    ensures !Touches(op, n)
  {
    if !op.Save? {
      SwapsTouch(Changes(resolve, d, wishes), op);
      ChangesAreWishes(resolve, d, wishes);
    }
  }

  /** Whatever was installed, and wherever it stopped, other entries keep their place and their target. */
  lemma {:induction false} OnlyRequestedLinksChange(resolve: string -> string, d: Disk, attempts: seq<Attempt>,
                                                    n: string)
    requires forall a | a in attempts :: !Requested(a.wishes, n)
    ensures SameAt(d, AfterAll(resolve, d, attempts), n)
  {
    if attempts != [] {
      var before, a := AfterAll(resolve, d, attempts[..|attempts| - 1]), attempts[|attempts| - 1];
      OnlyRequestedLinksChange(resolve, d, attempts[..|attempts| - 1], n);
      assert a in attempts;
      var ops := Take(Program(resolve, before, a.wishes), a.done);
      forall op | op in ops ensures !Touches(op, n) { ProgramTouches(resolve, before, a.wishes, n, op); }
      RunTouches(before, ops, n);
    }
  }

  // ------------------------------------------------------------------ a link is always there

  /** The entry is what it was, or a link to what one of these wishes wants. */
  ghost predicate OldOrNew(a: Disk, b: Disk, n: string, wishes: seq<Wish>) {
    SameAt(a, b, n) || exists w :: w in wishes && w.name == n && n in b.entries && b.entries[n] == Link(w.to)
  }

  lemma ObstructedStops(d: Disk, changes: seq<Wish>, m: nat)
    requires changes != [] && Obstructed(d, changes[0])
    ensures Run(d, Take(Swaps(changes), m)).disk == d
  {
    var w := changes[0];
    var clear, stage := Clear(w.name), Stage(w.name, w.to);
    if m == 1 {
      assert Take(Swaps(changes), 1) == [clear] + [];
      RunOne(d, clear, []);
    } else if m > 1 {
      var rest := Take(Swaps(changes), m)[2..];
      assert Take(Swaps(changes), m) == [clear] + ([stage] + rest);
      RunOne(d, clear, [stage] + rest);
      RunOne(d, stage, rest);
    }
  }

  lemma {:induction false} SwapsOldOrNew(d: Disk, changes: seq<Wish>, m: nat, n: string)
    requires n in EXTENSIONS
    ensures OldOrNew(d, Run(d, Take(Swaps(changes), m)).disk, n, changes)
    decreases |changes|
  {
    if changes != [] && m > 0 {
      var w := changes[0];
      TmpNames(n, w.name);
      assert w in changes;
      if Obstructed(d, w) {
        ObstructedStops(d, changes, m);
      } else if m >= 3 {
        SkipSwap(d, changes, m);
        SwapsOldOrNew(Swapped(d, w), changes[1..], m - 3, n);
        assert OldOrNew(d, Swapped(d, w), n, changes);
        assert forall v | v in changes[1..] :: v in changes;
      } else {
        HalfSwap(d, changes, m);
      }
    }
  }

  lemma AttemptOldOrNew(resolve: string -> string, d: Disk, a: Attempt, n: string)
    requires n in EXTENSIONS
    ensures OldOrNew(d, After(resolve, d, a), n, a.wishes)
  {
    var changes := Changes(resolve, d, a.wishes);
    if !Refused(d, a.wishes) && !Tears(resolve, d, a) && changes != [] && a.done > 0 {
      TakeBehind([Save], Swaps(changes), a.done);
      SaveOp(d, Take(Swaps(changes), a.done - 1));
      SwapsOldOrNew(SaveFirst(d), changes, a.done - 1, n);
      ChangesAreWishes(resolve, d, a.wishes);
    }
  }

  ghost predicate Wanted(attempts: seq<Attempt>, n: string, to: string) {
    exists a, w :: a in attempts && w in a.wishes && w.name == n && w.to == to
  }

  /**
   Wherever the installs stop, an extension that was a link still is one: to where it pointed, or to where one of them
   wanted it.
   */
  lemma {:induction false} LinksNeverVanish(resolve: string -> string, first: Disk, attempts: seq<Attempt>, n: string)
    requires n in EXTENSIONS && n in first.entries && first.entries[n].Link?
    ensures var d := AfterAll(resolve, first, attempts);
            && n in d.entries && d.entries[n].Link?
            && (d.entries[n] == first.entries[n] || Wanted(attempts, n, d.entries[n].target))
  {
    if attempts != [] {
      var k := |attempts| - 1;
      LinksNeverVanish(resolve, first, attempts[..k], n);
      var before := AfterAll(resolve, first, attempts[..k]);
      AttemptOldOrNew(resolve, before, attempts[k], n);
      assert attempts[k] in attempts && forall a | a in attempts[..k] :: a in attempts;
    }
  }

  // ------------------------------------------------------------------ the backup is the first listing

  lemma {:induction false} BackupStays(d: Disk, ops: seq<Op>)
    requires d.backup.Some?
    ensures Run(d, ops).disk.backup == d.backup
    decreases |ops|
  {
    if ops != [] && Exec(d, ops[0]).Some? { BackupStays(Exec(d, ops[0]).value, ops[1..]); }
  }

  /** Before any backup nothing has changed; a complete backup lists what was there first. */
  predicate BackupTells(first: Disk, d: Disk) {
    match d.backup
    case None => d.entries == first.entries
    case Some(Saved(listing)) => listing == first.entries
    case Some(Torn) => true
  }

  /** Some install died while it wrote the backup. */
  predicate EverTears(resolve: string -> string, first: Disk, attempts: seq<Attempt>) {
    attempts != []
    && var front, last := attempts[..|attempts| - 1], attempts[|attempts| - 1];
       EverTears(resolve, first, front) || Tears(resolve, AfterAll(resolve, first, front), last)
  }

  /**
   Over any sequence of installs the backup is missing while nothing has changed, and afterwards the listing before
   the first change -- unless an install died while it wrote the backup: then the torn file stays for good.
   */
  lemma {:induction false} BackupIsFirstListing(resolve: string -> string, first: Disk, attempts: seq<Attempt>)
    requires first.backup.None?
    ensures BackupTells(first, AfterAll(resolve, first, attempts))
    ensures AfterAll(resolve, first, attempts).backup == Some(Torn)
            <==> EverTears(resolve, first, attempts)
  {
    if attempts != [] {
      var n := |attempts| - 1;
      BackupIsFirstListing(resolve, first, attempts[..n]);
      var d, a := AfterAll(resolve, first, attempts[..n]), attempts[n];
      if !Refused(d, a.wishes) && !Tears(resolve, d, a) {
        var ops := Take(Program(resolve, d, a.wishes), a.done);
        if ops != [] {
          assert ops[0] == Save;
          BackupStays(SaveFirst(d), ops[1..]);
        }
      }
    }
  }

  // ------------------------------------------------------------------ recovery

  /** A temporary link is left only for a link that still has to change. */
  predicate Tidy(resolve: string -> string, d: Disk, wishes: seq<Wish>) {
    forall w | w in wishes ::
      !Blocked(d, w) && (Tmp(w.name) in d.entries ==> !Obstructed(d, w) && !PointsAt(resolve, d, w))
  }

  ghost predicate Todo(resolve: string -> string, d: Disk, wishes: seq<Wish>, changes: seq<Wish>) {
    && (forall w | w in changes :: w in wishes && !PointsAt(resolve, d, w))
    && (forall i, j | 0 <= i < j < |changes| :: changes[i].name != changes[j].name)
  }

  lemma NamesApart(resolve: string -> string, wishes: seq<Wish>, v: Wish, w: Wish)
    requires Valid(resolve, wishes) && v in wishes && w in wishes
    ensures v.name == w.name ==> v == w
    ensures v.name != Tmp(w.name) && (v.name != w.name ==> Tmp(v.name) != Tmp(w.name))
    ensures resolve(w.to) == w.to
  {
    TmpNames(v.name, w.name);
  }

  lemma SwapKeepsTidy(resolve: string -> string, d: Disk, wishes: seq<Wish>, w: Wish)
    requires Valid(resolve, wishes) && w in wishes && Tidy(resolve, d, wishes)
    ensures Tidy(resolve, Swapped(d, w), wishes)
    ensures PointsAt(resolve, Swapped(d, w), w) && Tmp(w.name) !in Swapped(d, w).entries
    ensures forall v | v in wishes && v != w ::
              SameAt(d, Swapped(d, w), v.name) && SameAt(d, Swapped(d, w), Tmp(v.name))
  {
    forall v | v in wishes
      ensures v != w ==> SameAt(d, Swapped(d, w), v.name) && SameAt(d, Swapped(d, w), Tmp(v.name))
      ensures v == w ==> Tmp(v.name) !in Swapped(d, w).entries
    {
      NamesApart(resolve, wishes, v, w);
      NamesApart(resolve, wishes, w, v);
    }
    NamesApart(resolve, wishes, w, w);
  }

  lemma RestTodo(resolve: string -> string, d: Disk, wishes: seq<Wish>, changes: seq<Wish>)
    requires Valid(resolve, wishes) && Tidy(resolve, d, wishes) && Todo(resolve, d, wishes, changes) && changes != []
    ensures Tidy(resolve, Swapped(d, changes[0]), wishes)
    ensures Todo(resolve, Swapped(d, changes[0]), wishes, changes[1..])
    ensures PointsAt(resolve, Swapped(d, changes[0]), changes[0])
    ensures forall v | v in wishes && v != changes[0] ::
              SameAt(d, Swapped(d, changes[0]), v.name) && SameAt(d, Swapped(d, changes[0]), Tmp(v.name))
  {
    SwapKeepsTidy(resolve, d, wishes, changes[0]);
    forall v | v in changes[1..] ensures v in wishes && v != changes[0] {
      assert v in changes;
      var k :| 0 <= k < |changes[1..]| && changes[1..][k] == v;
      assert changes[k + 1] == v;
    }
  }

  /** The swaps of a tidy disk all succeed and leave every listed link in place. */
  lemma {:induction false} SwapsFinish(resolve: string -> string, d: Disk, wishes: seq<Wish>, changes: seq<Wish>)
    requires Valid(resolve, wishes) && Tidy(resolve, d, wishes) && Todo(resolve, d, wishes, changes)
    ensures Run(d, Swaps(changes)).ok
    ensures Tidy(resolve, Run(d, Swaps(changes)).disk, wishes)
    ensures forall v | v in wishes && (PointsAt(resolve, d, v) || v in changes) ::
              PointsAt(resolve, Run(d, Swaps(changes)).disk, v)
    decreases |changes|
  {
    if changes != [] {
      var w := changes[0];
      assert w in changes;
      RunSwap(d, changes);
      RestTodo(resolve, d, wishes, changes);
      SwapsFinish(resolve, Swapped(d, w), wishes, changes[1..]);
      forall v | v in wishes && (PointsAt(resolve, d, v) || v in changes)
        ensures PointsAt(resolve, Swapped(d, w), v) || v in changes[1..] { }
    }
  }

  /** Stopping anywhere among them leaves a tidy disk. */
  lemma {:induction false} SwapsStayTidy(resolve: string -> string, d: Disk, wishes: seq<Wish>, changes: seq<Wish>,
                                         n: nat)
    requires Valid(resolve, wishes) && Tidy(resolve, d, wishes) && Todo(resolve, d, wishes, changes)
    ensures Tidy(resolve, Run(d, Take(Swaps(changes), n)).disk, wishes)
    decreases |changes|
  {
    if changes != [] && n > 0 {
      var w := changes[0];
      assert w in changes;
      if n >= 3 {
        SkipSwap(d, changes, n);
        RestTodo(resolve, d, wishes, changes);
        SwapsStayTidy(resolve, Swapped(d, w), wishes, changes[1..], n - 3);
      } else {
        HalfSwap(d, changes, n);
        forall v | v in wishes
          ensures v != w ==> v.name != Tmp(w.name) && Tmp(v.name) != Tmp(w.name) && v.name != w.name
          ensures w.name != Tmp(w.name)
        {
          NamesApart(resolve, wishes, v, w);
          NamesApart(resolve, wishes, w, w);
          TmpNames(v.name, w.name);
        }
      }
    }
  }

  lemma TakeBehind(a: seq<Op>, b: seq<Op>, n: nat)
    requires n >= |a|
    ensures Take(a + b, n) == a + Take(b, n - |a|)
  {
  }

  lemma SkipSwap(d: Disk, changes: seq<Wish>, n: nat)
    requires changes != [] && n >= 3 && !Obstructed(d, changes[0])
    ensures Run(d, Take(Swaps(changes), n)) == Run(Swapped(d, changes[0]), Take(Swaps(changes[1..]), n - 3))
  {
    var w, rest := changes[0], Take(Swaps(changes[1..]), n - 3);
    var first := [Clear(w.name), Stage(w.name, w.to), LinkInstaller.Swap(w.name)];
    TakeBehind(first, Swaps(changes[1..]), n);
    assert first + rest == [Clear(w.name)] + ([Stage(w.name, w.to)] + ([LinkInstaller.Swap(w.name)] + rest));
    RunThree(d, w, rest);
  }

  /** One or two operations into a swap: the temporary link is gone, or new. */
  lemma HalfSwap(d: Disk, changes: seq<Wish>, n: nat)
    requires changes != [] && 1 <= n <= 2 && !Obstructed(d, changes[0])
    ensures var w := changes[0];
            var cleared := d.(entries := d.entries - {Tmp(w.name)});
            Run(d, Take(Swaps(changes), n)).disk
            == if n == 1 then cleared else cleared.(entries := cleared.entries[Tmp(w.name) := Link(w.to)])
  {
    var w := changes[0];
    var clear, stage := Clear(w.name), Stage(w.name, w.to);
    var cleared := d.(entries := d.entries - {Tmp(w.name)});
    assert Tmp(w.name) !in d.entries ==> cleared == d;
    if n == 1 {
      assert Take(Swaps(changes), n) == [clear] + [];
      RunOne(d, clear, []);
    } else {
      assert Take(Swaps(changes), n) == [clear] + ([stage] + []);
      RunOne(d, clear, [stage] + []);
      RunOne(cleared, stage, []);
    }
  }

  lemma {:induction false} ChangesTodo(resolve: string -> string, d: Disk, wishes: seq<Wish>)
    requires Valid(resolve, wishes)
    ensures Todo(resolve, d, wishes, Changes(resolve, d, wishes))
    ensures forall w | w in wishes && !PointsAt(resolve, d, w) :: w in Changes(resolve, d, wishes)
  {
    ChangesAreWishes(resolve, d, wishes);
    if wishes != [] {
      ChangesTodo(resolve, d, wishes[1..]);
      ChangesAreWishes(resolve, d, wishes[1..]);
      var rest := Changes(resolve, d, wishes[1..]);
      forall j | 0 <= j < |rest| ensures rest[j].name != wishes[0].name {
        assert rest[j] in wishes[1..];
      }
    }
  }

  predicate AllUnchanged(resolve: string -> string, d: Disk, wishes: seq<Wish>) {
    forall w | w in wishes :: PointsAt(resolve, d, w)
  }

  predicate NoTemporaries(d: Disk, wishes: seq<Wish>) {
    forall w | w in wishes :: Tmp(w.name) !in d.entries
  }

  lemma SaveKeepsTodo(resolve: string -> string, d: Disk, wishes: seq<Wish>, changes: seq<Wish>)
    requires Tidy(resolve, d, wishes) && Todo(resolve, d, wishes, changes)
    ensures Tidy(resolve, SaveFirst(d), wishes) && Todo(resolve, SaveFirst(d), wishes, changes)
    ensures forall v :: PointsAt(resolve, SaveFirst(d), v) <==> PointsAt(resolve, d, v)
  {
  }

  /** An uninterrupted install of a tidy disk puts every link in place and leaves no temporary link. */
  lemma InstallFinishes(resolve: string -> string, d: Disk, wishes: seq<Wish>)
    requires Valid(resolve, wishes) && Tidy(resolve, d, wishes)
    ensures var ran := Run(d, Program(resolve, d, wishes));
            ran.ok && AllUnchanged(resolve, ran.disk, wishes) && NoTemporaries(ran.disk, wishes)
  {
    var changes := Changes(resolve, d, wishes);
    ChangesTodo(resolve, d, wishes);
    if changes != [] {
      SaveKeepsTodo(resolve, d, wishes, changes);
      SaveOp(d, Swaps(changes));
      SwapsFinish(resolve, SaveFirst(d), wishes, changes);
    }
  }

  /** The temporary name of a link that does not change stays taken. */
  lemma LeftoverStays(resolve: string -> string, d: Disk, wishes: seq<Wish>, w: Wish)
    requires Valid(resolve, wishes) && w in wishes && PointsAt(resolve, d, w) && Tmp(w.name) in d.entries
    ensures Tmp(w.name) in Run(d, Program(resolve, d, wishes)).disk.entries
  {
    var ops := Program(resolve, d, wishes);
    forall op | op in ops ensures !Touches(op, Tmp(w.name)) {
      if !op.Save? {
        SwapsTouch(Changes(resolve, d, wishes), op);
        ChangesAreWishes(resolve, d, wishes);
        var v :| v in Changes(resolve, d, wishes) && op.name == v.name;
        NamesApart(resolve, wishes, v, w);
        NamesApart(resolve, wishes, w, v);
      }
    }
    RunTouches(d, ops, Tmp(w.name));
  }

  /** The swaps fail at an obstructed name, or before it. */
  lemma {:induction false} ObstructedFails(resolve: string -> string, d: Disk, wishes: seq<Wish>, changes: seq<Wish>,
                                           w: Wish)
    requires Valid(resolve, wishes) && w in changes && Obstructed(d, w) && forall v | v in changes :: v in wishes
    ensures !Run(d, Swaps(changes)).ok
    decreases |changes|
  {
    var v := changes[0];
    assert v in changes;
    RunSwap(d, changes);
    if v != w {
      NamesApart(resolve, wishes, v, w);
      NamesApart(resolve, wishes, w, v);
      ObstructedFails(resolve, Swapped(d, v), wishes, changes[1..], w);
    }
  }

  /**
   An uninterrupted install that is not refused succeeds and leaves no temporary link exactly when the disk was tidy:
   no temporary name was obstructed, and none was left over from a link that does not change.
   */
  lemma FinishesIffTidy(resolve: string -> string, d: Disk, wishes: seq<Wish>)
    requires Valid(resolve, wishes) && !Refused(d, wishes)
    ensures var ran := Run(d, Program(resolve, d, wishes));
            ran.ok && NoTemporaries(ran.disk, wishes) <==> Tidy(resolve, d, wishes)
  {
    if Tidy(resolve, d, wishes) {
      InstallFinishes(resolve, d, wishes);
    } else {
      var w :| w in wishes
               && (Blocked(d, w) || (Tmp(w.name) in d.entries && (Obstructed(d, w) || PointsAt(resolve, d, w))));
      var i :| 0 <= i < |wishes| && wishes[i] == w;
      assert !Blocked(d, wishes[i]);
      if PointsAt(resolve, d, w) {
        LeftoverStays(resolve, d, wishes, w);
      } else {
        ChangesTodo(resolve, d, wishes);
        var changes := Changes(resolve, d, wishes);
        SaveOp(d, Swaps(changes));
        ObstructedFails(resolve, SaveFirst(d), wishes, changes, w);
      }
    }
  }

  lemma AttemptStaysTidy(resolve: string -> string, d: Disk, a: Attempt)
    requires Valid(resolve, a.wishes) && Tidy(resolve, d, a.wishes)
    ensures Tidy(resolve, After(resolve, d, a), a.wishes)
  {
    var changes := Changes(resolve, d, a.wishes);
    if !Refused(d, a.wishes) && !Tears(resolve, d, a) && changes != [] && a.done > 0 {
      ChangesTodo(resolve, d, a.wishes);
      SaveKeepsTodo(resolve, d, a.wishes, changes);
      var rest := Take(Swaps(changes), a.done - 1);
      TakeBehind([Save], Swaps(changes), a.done);
      SaveOp(d, rest);
      assert After(resolve, d, a) == Run(SaveFirst(d), rest).disk;
      SwapsStayTidy(resolve, SaveFirst(d), a.wishes, changes, a.done - 1);
    }
  }

  lemma {:induction false} AttemptsStayTidy(resolve: string -> string, d: Disk, attempts: seq<Attempt>,
                                            wishes: seq<Wish>)
    requires Valid(resolve, wishes) && Tidy(resolve, d, wishes) && forall a | a in attempts :: a.wishes == wishes
    ensures Tidy(resolve, AfterAll(resolve, d, attempts), wishes)
  {
    if attempts != [] {
      var n := |attempts| - 1;
      assert attempts[n] in attempts;
      AttemptsStayTidy(resolve, d, attempts[..n], wishes);
      AttemptStaysTidy(resolve, AfterAll(resolve, d, attempts[..n]), attempts[n]);
    }
  }

  /**
   Crash as often as you like: installing the same target once more, without a crash, ends with every link in place
   and no temporary link, and one more install after that changes nothing.
   */
  lemma RerunRecovers(resolve: string -> string, d: Disk, attempts: seq<Attempt>, wishes: seq<Wish>)
    requires Valid(resolve, wishes) && !Refused(d, wishes) && NoTemporaries(d, wishes)
    requires forall a | a in attempts :: a.wishes == wishes
    ensures var crashed := AfterAll(resolve, d, attempts);
            var ran := Run(crashed, Program(resolve, crashed, wishes));
            && !Refused(crashed, wishes) && ran.ok
            && AllUnchanged(resolve, ran.disk, wishes) && NoTemporaries(ran.disk, wishes)
            && Program(resolve, ran.disk, wishes) == []
  {
    forall w | w in wishes ensures !Blocked(d, w) {
      var i :| 0 <= i < |wishes| && wishes[i] == w;
    }
    AttemptsStayTidy(resolve, d, attempts, wishes);
    var crashed := AfterAll(resolve, d, attempts);
    InstallFinishes(resolve, crashed, wishes);
    var after := Run(crashed, Program(resolve, crashed, wishes)).disk;
    NothingToChange(resolve, after, wishes);
  }

  lemma {:induction false} NothingToChange(resolve: string -> string, d: Disk, wishes: seq<Wish>)
    requires AllUnchanged(resolve, d, wishes)
    ensures Changes(resolve, d, wishes) == []
  {
    if wishes != [] {
      assert wishes[0] in wishes;
      NothingToChange(resolve, d, wishes[1..]);
    }
  }

  lemma OneChange(resolve: string -> string, d: Disk, w: Wish)
    ensures Changes(resolve, d, [w]) == if PointsAt(resolve, d, w) then [] else [w]
  {
    assert [w][1..] == [];
  }

  /** A crash on the way to another target leaves its temporary link behind when then nothing is left to change. */
  lemma OtherTargetLeavesTemporary(resolve: string -> string, d: Disk, name: string, here: string, there: string)
    requires Valid(resolve, [Wish(name, here)]) && Valid(resolve, [Wish(name, there)]) && here != there
    requires PointsAt(resolve, d, Wish(name, here)) && NoTemporaries(d, [Wish(name, here)])
    ensures var crashed := After(resolve, d, Attempt([Wish(name, there)], 3, false));
            && Program(resolve, crashed, [Wish(name, here)]) == []
            && Tmp(name) in crashed.entries
  {
    var w := Wish(name, there);
    assert [w][0] == w && [Wish(name, here)][0].name == name;
    TmpNames(name, name);
    OneChange(resolve, d, w);
    HalfwayThere(resolve, d, w);
    OneChange(resolve, After(resolve, d, Attempt([w], 3, false)), Wish(name, here));
  }

  /** The backup saved, the temporary link staged, the swap still to come. */
  lemma HalfwayThere(resolve: string -> string, d: Disk, w: Wish)
    requires !Blocked(d, w) && Changes(resolve, d, [w]) == [w] && Tmp(w.name) !in d.entries
    ensures After(resolve, d, Attempt([w], 3, false))
            == SaveFirst(d).(entries := d.entries[Tmp(w.name) := Link(w.to)])
  {
    assert !Refused(d, [w]);
    assert Take([Save] + Swaps([w]), 3) == [Save] + Take(Swaps([w]), 2);
    SaveOp(d, Take(Swaps([w]), 2));
    HalfSwap(SaveFirst(d), [w], 2);
    assert d.entries - {Tmp(w.name)} == d.entries;
  }
}
