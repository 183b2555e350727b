/**
 The installer that points extension links at a pinned checkout: plan, save the first listing, swap link by link.
 `resolve` maps the text of a link to the path it stands for and does not change while the installer is in use.
 Runs may stop between any two file-system operations, or in the middle of writing the backup.
 */
module LinkInstaller {
  import opened Prelude

  /** An entry of the extensions directory. */
  datatype Node = Link(target: string) | Dir | File

  /** The backup file: a complete listing, or text that a crash cut short. */
  datatype Backup = Saved(listing: map<string, Node>) | Torn

  datatype Disk = Disk(entries: map<string, Node>, backup: Option<Backup>)

  /** An extension and the resolved path its link should have. */
  datatype Wish = Wish(name: string, to: string)

  datatype Action =
    | Unchanged(name: string, to: string)
    | Retarget(name: string, was: string, to: string)
    | Create(name: string, to: string)

  const EXTENSIONS := ["z0int-bridge", "local-cognition", "z0int-intelligence"]

  ghost predicate Valid(resolve: string -> string, wishes: seq<Wish>) {
    && (forall i | 0 <= i < |wishes| :: wishes[i].name in EXTENSIONS && resolve(wishes[i].to) == wishes[i].to)
    && (forall i, j | 0 <= i < j < |wishes| :: wishes[i].name != wishes[j].name)
  }

  function Tmp(name: string): string { "." + name + ".z0wiring-tmp" }

  lemma TmpNames(a: string, b: string)
    ensures Tmp(a) == Tmp(b) ==> a == b
    ensures a in EXTENSIONS ==> a != Tmp(b)
  {
    var n := |a|;
    if Tmp(a) == Tmp(b) {
      assert Tmp(a)[1..n + 1] == a && Tmp(b)[1..n + 1] == b;
    }
    assert Tmp(b)[0] == '.';
    assert EXTENSIONS[0][0] != '.' && EXTENSIONS[1][0] != '.' && EXTENSIONS[2][0] != '.';
  }

  // ------------------------------------------------------------------ plan

  predicate PointsAt(resolve: string -> string, d: Disk, w: Wish) {
    w.name in d.entries && d.entries[w.name].Link? && resolve(d.entries[w.name].target) == w.to
  }

  /** Something that is not a link stands in the way. */
  predicate Blocked(d: Disk, w: Wish) {
    w.name in d.entries && !d.entries[w.name].Link?
  }

  function ActionFor(resolve: string -> string, d: Disk, w: Wish): Action {
    if w.name !in d.entries || !d.entries[w.name].Link? then Create(w.name, w.to)
    else if PointsAt(resolve, d, w) then Unchanged(w.name, w.to)
    else Retarget(w.name, d.entries[w.name].target, w.to)
  }

  /** The action says what stands there now, and what is wanted. */
  predicate Describes(resolve: string -> string, d: Disk, w: Wish, a: Action) {
    && a.name == w.name && a.to == w.to
    && match a
       case Create(_, _) => w.name !in d.entries
       case Unchanged(_, _) =>
         w.name in d.entries && d.entries[w.name].Link? && resolve(d.entries[w.name].target) == w.to
       case Retarget(_, was, _) =>
         w.name in d.entries && d.entries[w.name] == Link(was) && resolve(was) != w.to
  }

  /** `plan`: refuses with the first entry that is not a link. */
  method Plan(resolve: string -> string, d: Disk, wishes: seq<Wish>) returns (r: Result<seq<Action>, string>)
    ensures r.Ok? <==> forall i | 0 <= i < |wishes| :: !Blocked(d, wishes[i])
    ensures r.Ok? ==> |r.value| == |wishes|
                      && forall i | 0 <= i < |wishes| :: r.value[i] == ActionFor(resolve, d, wishes[i])
    ensures r.Ok? ==> forall i | 0 <= i < |wishes| :: Describes(resolve, d, wishes[i], r.value[i])
    ensures r.Err? ==> exists i :: 0 <= i < |wishes| && Blocked(d, wishes[i]) && r.error == wishes[i].name
                                   && forall j | 0 <= j < i :: !Blocked(d, wishes[j])
  {
    var actions := [];
    for i := 0 to |wishes|
      invariant |actions| == i
      invariant forall j | 0 <= j < i :: !Blocked(d, wishes[j]) && actions[j] == ActionFor(resolve, d, wishes[j])
    {
      var w := wishes[i];
      if w.name in d.entries && d.entries[w.name].Link? {
        var current := d.entries[w.name].target;
        if resolve(current) == w.to {
          actions := actions + [Unchanged(w.name, w.to)];
        } else {
          actions := actions + [Retarget(w.name, current, w.to)];
        }
      } else if w.name in d.entries {
        return Err(w.name);
      } else {
        actions := actions + [Create(w.name, w.to)];
      }
    }
    return Ok(actions);
  }

  // ------------------------------------------------------------------ apply, operation by operation

  datatype Op = Save | Clear(name: string) | Stage(name: string, to: string) | Swap(name: string)

  /** One file-system operation; None when it raises. */
  function Exec(d: Disk, op: Op): Option<Disk> {
    match op
    case Save => Some(if d.backup.Some? then d else d.(backup := Some(Saved(d.entries))))
    case Clear(name) =>
      Some(if Tmp(name) in d.entries && d.entries[Tmp(name)].Link? then d.(entries := d.entries - {Tmp(name)}) else d)
    case Stage(name, to) =>
      if Tmp(name) in d.entries then None else Some(d.(entries := d.entries[Tmp(name) := Link(to)]))
    case Swap(name) =>
      if Tmp(name) !in d.entries then None
      else Some(d.(entries := (d.entries - {Tmp(name)})[name := d.entries[Tmp(name)]]))
  }

  datatype Ran = Ran(disk: Disk, ok: bool)

  /** Runs operations until one raises. */
  function Run(d: Disk, ops: seq<Op>): Ran
    decreases |ops|
  {
    if ops == [] then Ran(d, true)
    else match Exec(d, ops[0])
      case None => Ran(d, false)
      case Some(next) => Run(next, ops[1..])
  }

  /** What a plan wants changed. */
  function Changes(resolve: string -> string, d: Disk, wishes: seq<Wish>): seq<Wish> {
    if wishes == [] then []
    else (if PointsAt(resolve, d, wishes[0]) then [] else [wishes[0]]) + Changes(resolve, d, wishes[1..])
  }

  function Swaps(changes: seq<Wish>): seq<Op> {
    if changes == [] then []
    else [Clear(changes[0].name), Stage(changes[0].name, changes[0].to), Swap(changes[0].name)] + Swaps(changes[1..])
  }

  /** The operations of `apply` on the plan for these wishes. */
  function Program(resolve: string -> string, d: Disk, wishes: seq<Wish>): seq<Op> {
    var changes := Changes(resolve, d, wishes);
    if changes == [] then [] else [Save] + Swaps(changes)
  }

  /** A temporary name is taken by something that is not a link. */
  predicate Obstructed(d: Disk, w: Wish) {
    Tmp(w.name) in d.entries && !d.entries[Tmp(w.name)].Link?
  }

  function Swapped(d: Disk, w: Wish): Disk { d.(entries := (d.entries - {Tmp(w.name)})[w.name := Link(w.to)]) }

  /** One link: cleared, staged and swapped, unless its temporary name is obstructed. */
  lemma RunSwap(d: Disk, changes: seq<Wish>)
    requires changes != []
    ensures Run(d, Swaps(changes))
            == if Obstructed(d, changes[0]) then Ran(d, false) else Run(Swapped(d, changes[0]), Swaps(changes[1..]))
  {
    var w, rest := changes[0], Swaps(changes[1..]);
    assert Swaps(changes) == [Clear(w.name)] + ([Stage(w.name, w.to)] + ([Swap(w.name)] + rest));
    RunThree(d, w, rest);
  }

  lemma RunThree(d: Disk, w: Wish, rest: seq<Op>)
    ensures Run(d, [Clear(w.name)] + ([Stage(w.name, w.to)] + ([Swap(w.name)] + rest)))
            == if Obstructed(d, w) then Ran(d, false) else Run(Swapped(d, w), rest)
  {
    var clear, stage, swap := Clear(w.name), Stage(w.name, w.to), Swap(w.name);
    RunOne(d, clear, [stage] + ([swap] + rest));
    var cleared := Exec(d, clear).value;
    RunOne(cleared, stage, [swap] + rest);
    if Obstructed(d, w) {
      assert cleared == d;
    } else {
      assert cleared.entries == d.entries - {Tmp(w.name)};
      var staged := Exec(cleared, stage).value;
      RunOne(staged, swap, rest);
      assert staged.entries - {Tmp(w.name)} == d.entries - {Tmp(w.name)};
    }
  }

  lemma RunOne(d: Disk, op: Op, rest: seq<Op>)
    ensures Run(d, [op] + rest)
            == match Exec(d, op) { case None => Ran(d, false) case Some(next) => Run(next, rest) }
  {
    assert ([op] + rest)[1..] == rest;
  }

  function SaveFirst(d: Disk): Disk {
    if d.backup.Some? then d else d.(backup := Some(Saved(d.entries)))
  }

  /** The loop of `apply` for one link; it raises when the temporary name is obstructed. */
  method SwapLink(d: Disk, name: string, to: string) returns (ran: Ran)
    ensures ran == if Obstructed(d, Wish(name, to)) then Ran(d, false) else Ran(Swapped(d, Wish(name, to)), true)
  {
    var tmp := Tmp(name);
    var after := d;
    if tmp in after.entries && after.entries[tmp].Link? {
      after := after.(entries := after.entries - {tmp});
    }
    if tmp in after.entries { return Ran(after, false); }
    after := after.(entries := after.entries[tmp := Link(to)]);
    after := after.(entries := (after.entries - {tmp})[name := after.entries[tmp]]);
    assert after.entries == (d.entries - {tmp})[name := Link(to)];
    return Ran(after, true);
  }

  method AnyChange(actions: seq<Action>) returns (any: bool)
    ensures any <==> exists i :: 0 <= i < |actions| && !actions[i].Unchanged?
  {
    for i := 0 to |actions|
      invariant forall j | 0 <= j < i :: actions[j].Unchanged?
    {
      if !actions[i].Unchanged? { return true; }
    }
    return false;
  }

  /** `apply` of a plan that nothing interrupts. */
  method Apply(resolve: string -> string, d: Disk, wishes: seq<Wish>, actions: seq<Action>)
      returns (ran: Ran, wrote: bool)
    requires IsPlan(resolve, d, wishes, actions)
    ensures ran == Run(d, Program(resolve, d, wishes))
    ensures wrote <==> Changes(resolve, d, wishes) != [] && d.backup.None?
  {
    var any := AnyChange(actions);
    SomethingChanges(resolve, d, wishes, actions);
    if !any { return Ran(d, true), false; }
    var after := d;
    wrote := d.backup.None?;
    if wrote { after := after.(backup := Some(Saved(after.entries))); }
    SaveOp(d, Swaps(Changes(resolve, d, wishes)));
    ghost var goal := Run(d, Program(resolve, d, wishes));
    for i := 0 to |actions|
      invariant goal == Run(after, Swaps(Changes(resolve, d, wishes[i..])))
    {
      NextWish(resolve, d, wishes, i, after);
      if actions[i].Unchanged? { continue; }
      ran := SwapLink(after, actions[i].name, actions[i].to);
      if !ran.ok { return ran, wrote; }
      after := ran.disk;
    }
    ran := Ran(after, true);
  }

  /** `actions` is the plan for these wishes on this disk. */
  predicate IsPlan(resolve: string -> string, d: Disk, wishes: seq<Wish>, actions: seq<Action>) {
    && |actions| == |wishes|
    && forall i | 0 <= i < |wishes| :: !Blocked(d, wishes[i]) && actions[i] == ActionFor(resolve, d, wishes[i])
  }

  lemma {:induction false} SomethingChanges(resolve: string -> string, d: Disk, wishes: seq<Wish>, actions: seq<Action>)
    requires IsPlan(resolve, d, wishes, actions)
    ensures (exists i :: 0 <= i < |actions| && !actions[i].Unchanged?) <==> Changes(resolve, d, wishes) != []
  {
    if wishes != [] {
      SomethingChanges(resolve, d, wishes[1..], actions[1..]);
      if Changes(resolve, d, wishes[1..]) != [] {
        var i :| 0 <= i < |actions[1..]| && !actions[1..][i].Unchanged?;
        assert !actions[i + 1].Unchanged?;
      }
      forall i | 0 <= i < |actions| && !actions[i].Unchanged? ensures Changes(resolve, d, wishes) != [] {
        if i > 0 { assert !actions[1..][i - 1].Unchanged?; }
      }
    }
  }

  lemma NextWish(resolve: string -> string, d: Disk, wishes: seq<Wish>, i: nat, after: Disk)
    requires i < |wishes|
    ensures var now, next := Changes(resolve, d, wishes[i..]), Changes(resolve, d, wishes[i + 1..]);
            if PointsAt(resolve, d, wishes[i]) then now == next
            else Run(after, Swaps(now)) == if Obstructed(after, wishes[i]) then Ran(after, false)
                                           else Run(Swapped(after, wishes[i]), Swaps(next))
  {
    assert wishes[i..][1..] == wishes[i + 1..];
    if !PointsAt(resolve, d, wishes[i]) {
      var now := Changes(resolve, d, wishes[i..]);
      assert now[1..] == Changes(resolve, d, wishes[i + 1..]);
      RunSwap(after, now);
    }
  }

  lemma SaveOp(d: Disk, ops: seq<Op>)
    ensures Run(d, [Save] + ops) == Run(SaveFirst(d), ops)
  {
    RunOne(d, Save, ops);
  }
}
