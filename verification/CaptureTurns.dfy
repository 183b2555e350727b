/**
 Turn bookkeeping of the Hermes capture: which turns are open, which were closed lately, and which
 closes yield an outcome job.  A Python dict is its sequence of entries in insertion order.
 */
module CaptureTurns {
  import opened Prelude

  const MAX_TURNS: nat := 1024
  const MAX_ENDED: nat := 4096
  const FORGET: nat := 2048

  /** An open turn; `opening` numbers the `pre_llm_call` that stored it. */
  datatype Entry = Entry(key: string, opening: nat)
  /** An outcome job, with the number of closes recorded up to and including its own. */
  datatype Outcome = Outcome(turn: Entry, stamp: nat)

  datatype Book = Book(
    turns: seq<Entry>,        // self._turns
    ended: seq<string>,       // self._ended
    openings: seq<string>,    // history: the key of every opening
    recorded: seq<string>,    // history: every key put into _ended, in order
    outcomes: seq<Outcome>)   // history: every outcome job

  const EMPTY: Book := Book([], [], [], [], [])

  datatype Op = OpenTurn(key: string) | CloseTurn(key: string)

  // ------------------------------------------------------------------ dictionaries as sequences

  /** The position of a key, or the length. */
  function Find(turns: seq<Entry>, key: string): (i: nat)
    ensures i <= |turns|
    ensures i < |turns| ==> turns[i].key == key
    ensures forall k | 0 <= k < i :: turns[k].key != key
  {
    if turns == [] || turns[0].key == key then 0 else 1 + Find(turns[1..], key)
  }

  function Without(turns: seq<Entry>, i: nat): seq<Entry>
    requires i <= |turns|
  {
    if i < |turns| then turns[..i] + turns[i + 1..] else turns
  }

  ghost predicate Distinct(turns: seq<Entry>) {
    forall i, k | 0 <= i < k < |turns| :: turns[i].key != turns[k].key
  }

  // ------------------------------------------------------------------ the two operations

  /** `self._turns[key] = ...`, then the oldest entry goes when there are too many. */
  function Opened(b: Book, key: string): Book {
    var entry, i := Entry(key, |b.openings|), Find(b.turns, key);
    var turns := if i < |b.turns| then b.turns[i := entry] else b.turns + [entry];
    b.(turns := if |turns| > MAX_TURNS then turns[1..] else turns, openings := b.openings + [key])
  }

  /** `_close_turn`, and the outcome job of its caller when it returns a turn. */
  function Closed(b: Book, key: string): Book {
    if key == "" || key in b.ended then b
    else
      var ended, i := b.ended + [key], Find(b.turns, key);
      b.(turns := Without(b.turns, i),
         ended := if |ended| > MAX_ENDED then ended[FORGET..] else ended,
         recorded := b.recorded + [key],
         outcomes := if i < |b.turns| then b.outcomes + [Outcome(b.turns[i], |b.recorded| + 1)] else b.outcomes)
  }

  function Apply(b: Book, op: Op): Book {
    match op
    case OpenTurn(key) => Opened(b, key)
    case CloseTurn(key) => Closed(b, key)
  }

  function Run(ops: seq<Op>): Book {
    if ops == [] then EMPTY else Apply(Run(ops[..|ops| - 1]), ops[|ops| - 1])
  }

  // ------------------------------------------------------------------ the object

  class TurnBook {
    var turns: seq<Entry>
    var ended: seq<string>
    var count: nat              // openings so far
    ghost var openings: seq<string>
    ghost var recorded: seq<string>
    ghost var outcomes: seq<Outcome>

    ghost function View(): Book
      reads this
    {
      Book(turns, ended, openings, recorded, outcomes)
    }

    constructor ()
      ensures View() == EMPTY && count == 0
    {
      turns, ended, count := [], [], 0;
      openings, recorded, outcomes := [], [], [];
    }

    /** The locked part of `on_pre_llm_call`. */
    method StoreTurn(key: string)
      requires count == |openings|
      modifies this
      ensures View() == Opened(old(View()), key) && count == |openings|
      ensures var entry, i := Entry(key, old(count)), Find(old(turns), key);
              turns == if i < |old(turns)| && |old(turns)| <= 1024 then old(turns)[i := entry]
                       else if i < |old(turns)| then old(turns)[i := entry][1..]
                       else if |old(turns)| < 1024 then old(turns) + [entry]
                       else (old(turns) + [entry])[1..]
    {
      var i := 0;
      while i < |turns| && turns[i].key != key
        invariant 0 <= i <= |turns| && i <= Find(turns, key)
        invariant forall k | 0 <= k < i :: turns[k].key != key
      {
        i := i + 1;
      }
      var entry := Entry(key, count);
      turns := if i < |turns| then turns[i := entry] else turns + [entry];
      if |turns| > MAX_TURNS { turns := turns[1..]; }
      count, openings := count + 1, openings + [key];
    }

    /** The loop that forgets the oldest half of the keys. */
    method ForgetOldest()
      requires |ended| >= FORGET
      modifies `ended
      ensures ended == old(ended)[2048..]
    {
      var n := 0;
      while n < FORGET
        invariant 0 <= n <= FORGET && ended == old(ended)[n..]
      {
        ended := ended[1..];
        n := n + 1;
      }
    }

    /** `_close_turn`: nothing is recorded for no key, or for one that is remembered. */
    method Close(key: string) returns (turn: Option<Entry>)
      modifies this
      ensures View() == Closed(old(View()), key)
      ensures turn.Some? <==> key != "" && key !in old(ended) && exists e :: e in old(turns) && e.key == key
      ensures turn.Some? ==> turn.value in old(turns) && turn.value.key == key
      ensures turn.Some? <==> |outcomes| == |old(outcomes)| + 1
      ensures turn.Some? ==> outcomes[|old(outcomes)|].turn == turn.value
      ensures count == old(count)
    {
      if key == "" || key in ended { return None; }
      ended, recorded := ended + [key], recorded + [key];
      if |ended| > MAX_ENDED { ForgetOldest(); }
      var i := Find(turns, key);
      if i == |turns| { return None; }
      turn := Some(turns[i]);
      turns := turns[..i] + turns[i + 1..];
      outcomes := outcomes + [Outcome(turn.value, |recorded|)];
    }
  }

  // ------------------------------------------------------------------ what is remembered

  /** How many of the last `n` recorded closes are still remembered. */
  function Remembered(n: nat): nat {
    if n <= MAX_ENDED then n else MAX_ENDED - FORGET + 1 + (n - MAX_ENDED - 1) % FORGET
  }

  ghost predicate RemembersSuffix(b: Book) {
    var n := |b.recorded|;
    Remembered(n) <= n && b.ended == b.recorded[n - Remembered(n)..]
  }

  /** One more recorded close, where `r` keys were remembered before and `q` are afterwards. */
  lemma CloseKeepsSuffix(b: Book, key: string, r: nat, q: nat)
    requires r <= |b.recorded| && b.ended == b.recorded[|b.recorded| - r..] && key != "" && key !in b.ended
    requires q == if r + 1 > MAX_ENDED then r + 1 - FORGET else r + 1
    ensures var t := Closed(b, key); q <= |t.recorded| && t.ended == t.recorded[|t.recorded| - q..]
  {
    var t, from := Closed(b, key), |b.recorded| - r;
    assert b.recorded[from..] + [key] == t.recorded[from..];
    if r + 1 > MAX_ENDED { assert t.recorded[from..][FORGET..] == t.recorded[from + FORGET..]; }
  }

  lemma CloseRemembersSuffix(b: Book, key: string)
    requires RemembersSuffix(b)
    ensures RemembersSuffix(Closed(b, key))
  {
    if key != "" && key !in b.ended {
      var n := |b.recorded|;
      RememberedNext(n);
      var r, q := Remembered(n), Remembered(n + 1);
      CloseKeepsSuffix(b, key, r, q);
      assert |Closed(b, key).recorded| == n + 1;
    }
  }

  /** `_ended` is exactly the last Remembered(n) of the n keys ever recorded. */
  lemma {:induction false} EndedIsSuffix(ops: seq<Op>)
    ensures RemembersSuffix(Run(ops))
  {
    if ops != [] {
      EndedIsSuffix(ops[..|ops| - 1]);
      if ops[|ops| - 1].CloseTurn? { CloseRemembersSuffix(Run(ops[..|ops| - 1]), ops[|ops| - 1].key); }
    }
  }

  lemma RememberedNext(n: nat)
    ensures Remembered(n) <= n && Remembered(n) <= MAX_ENDED
    ensures Remembered(n + 1) == if Remembered(n) + 1 > MAX_ENDED then Remembered(n) + 1 - FORGET else Remembered(n) + 1
    ensures n >= MAX_ENDED - FORGET + 1 ==> Remembered(n) >= MAX_ENDED - FORGET + 1
  {
    if n > MAX_ENDED {
      var k := n - MAX_ENDED - 1;
      assert k == FORGET * (k / FORGET) + k % FORGET;
      if k % FORGET == FORGET - 1 {
        assert k + 1 == FORGET * (k / FORGET + 1);
      } else {
        assert k + 1 == FORGET * (k / FORGET) + (k % FORGET + 1);
      }
    }
  }

  /** Neither table ever exceeds its bound. */
  lemma {:induction false} Bounded(ops: seq<Op>)
    ensures |Run(ops).turns| <= 1024 && |Run(ops).ended| <= 4096
  {
    if ops != [] { Bounded(ops[..|ops| - 1]); }
  }

  /** A closed key is refused through the next 2048 recorded closes. */
  lemma ClosedKeyIsRemembered(ops: seq<Op>, i: nat)
    requires i < |Run(ops).recorded|
    requires |Run(ops).recorded| - i <= 2049
    ensures Run(ops).recorded[i] in Run(ops).ended
  {
    EndedIsSuffix(ops);
    var b := Run(ops);
    RememberedNext(|b.recorded|);
    var from := |b.recorded| - Remembered(|b.recorded|);
    assert b.recorded[from..][i - from] == b.recorded[i];
  }

  /** That is the best bound: the 4097th recorded close forgets the key closed 2049 closes before. */
  lemma ForgottenAfter2049(ops: seq<Op>)
    requires |Run(ops).recorded| == 4097
    requires forall i, k | 0 <= i < k < |Run(ops).recorded| :: Run(ops).recorded[i] != Run(ops).recorded[k]
    ensures Run(ops).recorded[4096 - 2049] !in Run(ops).ended
  {
    EndedIsSuffix(ops);
  }

  // ------------------------------------------------------------------ how long a turn stays open

  function OpensIn(ops: seq<Op>): nat {
    if ops == [] then 0 else OpensIn(ops[..|ops| - 1]) + if ops[|ops| - 1].OpenTurn? then 1 else 0
  }

  /** The turn is open, with at most so many entries behind it. */
  ghost predicate OpenWithin(turns: seq<Entry>, key: string, behind: nat) {
    exists k :: 0 <= k < |turns| && turns[k].key == key && |turns| - 1 - k <= behind
  }

  lemma OpenStaysOpen(b: Book, key: string, other: string, behind: nat)
    requires OpenWithin(b.turns, key, behind) && behind < 1023 && |b.turns| <= 1024
    ensures OpenWithin(Opened(b, other).turns, key, behind + 1)
  {
    var k :| 0 <= k < |b.turns| && b.turns[k].key == key && |b.turns| - 1 - k <= behind;
    var i, t := Find(b.turns, other), Opened(b, other).turns;
    if i == |b.turns| && |b.turns| == 1024 {
      assert t[k - 1] == b.turns[k];
    } else {
      assert t[k].key == key;
    }
  }

  lemma CloseKeepsOpen(b: Book, key: string, other: string, behind: nat)
    requires OpenWithin(b.turns, key, behind) && other != key
    ensures OpenWithin(Closed(b, other).turns, key, behind)
  {
    var k :| 0 <= k < |b.turns| && b.turns[k].key == key && |b.turns| - 1 - k <= behind;
    var i, t := Find(b.turns, other), Closed(b, other).turns;
    if t != b.turns {
      assert t[if i < k then k - 1 else k] == b.turns[k];
    }
  }

  /** A turn that was not open is opened as the last of the open ones. */
  lemma NewTurnIsLast(b: Book, key: string)
    requires Find(b.turns, key) == |b.turns|
    ensures OpenWithin(Opened(b, key).turns, key, 0)
  {
    var t := Opened(b, key).turns;
    assert t[|t| - 1].key == key;
  }

  lemma StaysOpen(b: Book, op: Op, key: string, behind: nat)
    requires OpenWithin(b.turns, key, behind) && |b.turns| <= 1024 && op != CloseTurn(key)
    requires op.OpenTurn? ==> behind < 1023
    ensures OpenWithin(Apply(b, op).turns, key, behind + if op.OpenTurn? then 1 else 0)
  {
    match op
    case OpenTurn(other) => OpenStaysOpen(b, key, other, behind);
    case CloseTurn(other) => CloseKeepsOpen(b, key, other, behind);
  }

  lemma RunThen(ops: seq<Op>, op: Op)
    ensures Run(ops + [op]) == Apply(Run(ops), op)
  {
    assert (ops + [op])[..|ops|] == ops;
  }

  /** A turn opened after `before` and not closed since is still open while at most 1023 turns were opened after it. */
  lemma {:induction false} OpenTurnSurvives(before: seq<Op>, key: string, after: seq<Op>)
    requires Find(Run(before).turns, key) == |Run(before).turns|
    requires CloseTurn(key) !in after && OpensIn(after) <= 1023
    ensures OpenWithin(Run(before + [OpenTurn(key)] + after).turns, key, OpensIn(after))
  {
    var opening := before + [OpenTurn(key)];
    if after == [] {
      assert opening + [] == opening;
      RunThen(before, OpenTurn(key));
      NewTurnIsLast(Run(before), key);
    } else {
      var n := |after| - 1;
      var earlier := opening + after[..n];
      assert earlier + [after[n]] == opening + after;
      RunThen(earlier, after[n]);
      OpenTurnSurvives(before, key, after[..n]);
      Bounded(earlier);
      StaysOpen(Run(earlier), after[n], key, OpensIn(after[..n]));
    }
  }

  /** The n-th of an endless supply of different keys. */
  function Key(n: nat): (key: string)
    ensures |key| == n + 1
  {
    if n == 0 then "x" else Key(n - 1) + "x"
  }

  function CloseFirst(n: nat): (ops: seq<Op>)
    ensures |ops| == n
  {
    if n == 0 then [] else CloseFirst(n - 1) + [CloseTurn(Key(n - 1))]
  }

  ghost predicate RecordsKeys(b: Book, n: nat) {
    |b.recorded| == n && forall i | 0 <= i < n :: b.recorded[i] == Key(i)
  }

  lemma NextKeyRecorded(b: Book, n: nat)
    requires RemembersSuffix(b) && RecordsKeys(b, n)
    ensures RecordsKeys(Closed(b, Key(n)), n + 1)
  {
    assert forall i | 0 <= i < n :: |b.recorded[i]| == i + 1;
  }

  /** Closing n different keys records them all, in order. */
  lemma {:induction false} AllRecorded(n: nat)
    ensures RecordsKeys(Run(CloseFirst(n)), n)
  {
    if n > 0 {
      AllRecorded(n - 1);
      EndedIsSuffix(CloseFirst(n - 1));
      assert CloseFirst(n)[..n - 1] == CloseFirst(n - 1);
      NextKeyRecorded(Run(CloseFirst(n - 1)), n - 1);
    }
  }

  /** So there is a run in which a key is forgotten 2049 recorded closes after its own. */
  lemma SomeKeyIsForgotten()
    ensures exists ops :: |Run(ops).recorded| == 4097 && Run(ops).recorded[4096 - 2049] !in Run(ops).ended
  {
    var ops := CloseFirst(MAX_ENDED + 1);
    AllRecorded(MAX_ENDED + 1);
    forall i, k | 0 <= i < k < |Run(ops).recorded| ensures Run(ops).recorded[i] != Run(ops).recorded[k] {
      assert |Run(ops).recorded[i]| == i + 1 && |Run(ops).recorded[k]| == k + 1;
    }
    ForgottenAfter2049(ops);
  }

  // ------------------------------------------------------------------ at most one outcome

  /** Each entry, open or closed with an outcome, is a distinct opening of its own key. */
  ghost predicate Openings(b: Book) {
    && Distinct(b.turns)
    && (forall i | 0 <= i < |b.turns| :: Genuine(b, b.turns[i]))
    && (forall i | 0 <= i < |b.outcomes| :: Genuine(b, b.outcomes[i].turn))
    && (forall i, k | 0 <= i < k < |b.outcomes| :: b.outcomes[i].turn.opening != b.outcomes[k].turn.opening)
    && (forall i, k | 0 <= i < |b.outcomes| && 0 <= k < |b.turns| :: b.outcomes[i].turn.opening != b.turns[k].opening)
  }

  ghost predicate Genuine(b: Book, e: Entry) {
    e.opening < |b.openings| && b.openings[e.opening] == e.key
  }

  /** `self._turns[key] = ...` alone. */
  function Stored(b: Book, key: string): Book {
    var entry, i := Entry(key, |b.openings|), Find(b.turns, key);
    b.(turns := if i < |b.turns| then b.turns[i := entry] else b.turns + [entry], openings := b.openings + [key])
  }

  lemma StoreKeepsOpenings(b: Book, key: string)
    requires Openings(b)
    ensures Openings(Stored(b, key))
  {
    var t, entry, at := Stored(b, key), Entry(key, |b.openings|), Find(b.turns, key);
    assert forall e | Genuine(b, e) :: Genuine(t, e) && e.opening != entry.opening;
    assert Genuine(t, entry);
    assert forall k | 0 <= k < |t.turns| :: t.turns[k] == if k == at then entry else b.turns[k];
    assert forall k | 0 <= k < |t.turns| && k != at :: t.turns[k].key != key;
    assert Distinct(t.turns);
  }

  lemma DropKeepsOpenings(b: Book)
    requires Openings(b) && b.turns != []
    ensures Openings(b.(turns := b.turns[1..]))
  {
    var t := b.(turns := b.turns[1..]);
    forall e | Genuine(b, e) ensures Genuine(t, e) { }
  }

  lemma OpenKeepsOpenings(b: Book, key: string)
    requires Openings(b)
    ensures Openings(Opened(b, key))
  {
    StoreKeepsOpenings(b, key);
    if |Stored(b, key).turns| > MAX_TURNS { DropKeepsOpenings(Stored(b, key)); }
  }

  /** Two open turns are different openings, because they have different keys. */
  lemma TurnsApart(b: Book, k: nat, l: nat)
    requires Openings(b) && k < |b.turns| && l < |b.turns| && k != l
    ensures b.turns[k].opening != b.turns[l].opening
  {
    assert Genuine(b, b.turns[k]) && Genuine(b, b.turns[l]);
    assert b.turns[if k < l then k else l].key != b.turns[if k < l then l else k].key;
  }

  lemma WithoutKeepsOpenings(b: Book, i: nat)
    requires Openings(b) && i < |b.turns|
    ensures Openings(b.(turns := Without(b.turns, i)))
    ensures forall k | 0 <= k < |Without(b.turns, i)| :: Without(b.turns, i)[k].opening != b.turns[i].opening
  {
    var t := b.(turns := Without(b.turns, i));
    assert forall k | 0 <= k < |t.turns| :: t.turns[k] == b.turns[if k < i then k else k + 1];
    forall e | Genuine(b, e) ensures Genuine(t, e) { }
    forall k | 0 <= k < |t.turns| ensures t.turns[k].opening != b.turns[i].opening {
      TurnsApart(b, if k < i then k else k + 1, i);
    }
  }

  lemma CloseKeepsOpenings(b: Book, key: string)
    requires Openings(b)
    ensures Openings(Closed(b, key))
  {
    var i := Find(b.turns, key);
    if i < |b.turns| { WithoutKeepsOpenings(b, i); }
    forall e | Genuine(b, e) ensures Genuine(Closed(b, key), e) { }
  }

  lemma {:induction false} RunKeepsOpenings(ops: seq<Op>)
    ensures Openings(Run(ops))
  {
    if ops != [] {
      var before := ops[..|ops| - 1];
      RunKeepsOpenings(before);
      match ops[|ops| - 1]
      case OpenTurn(key) => OpenKeepsOpenings(Run(before), key);
      case CloseTurn(key) => CloseKeepsOpenings(Run(before), key);
    }
  }

  /** An open turn is the latest opening of its key, so an outcome reports the latest one. */
  lemma {:induction false} OpenTurnIsLatest(ops: seq<Op>, i: nat, n: nat)
    requires i < |Run(ops).turns|
    requires Run(ops).turns[i].opening < n < |Run(ops).openings|
    ensures Run(ops).openings[n] != Run(ops).turns[i].key
  {
    var before, op := ops[..|ops| - 1], ops[|ops| - 1];
    RunKeepsOpenings(before);
    var b, e := Run(before), Run(ops).turns[i];
    if op.OpenTurn? && e == Entry(op.key, |b.openings|) {
    } else {
      assert e in b.turns;
      var k :| 0 <= k < |b.turns| && b.turns[k] == e;
      if n < |b.openings| {
        OpenTurnIsLatest(before, k, n);
      }
    }
  }

  /** Each opening of a turn yields at most one outcome job, and every outcome belongs to an opening. */
  lemma OneOutcomePerOpening(ops: seq<Op>)
    ensures forall o | o in Run(ops).outcomes :: Genuine(Run(ops), o.turn)
    ensures forall i, k | 0 <= i < k < |Run(ops).outcomes| ::
              Run(ops).outcomes[i].turn.opening != Run(ops).outcomes[k].turn.opening
  {
    RunKeepsOpenings(ops);
  }

  /** An outcome's stamp is the place of its key among the recorded closes. */
  ghost predicate Stamped(b: Book) {
    && (forall i | 0 <= i < |b.outcomes| ::
          0 < b.outcomes[i].stamp <= |b.recorded| && b.recorded[b.outcomes[i].stamp - 1] == b.outcomes[i].turn.key)
    && (forall i, k | 0 <= i < k < |b.outcomes| && b.outcomes[i].turn.key == b.outcomes[k].turn.key ::
          b.outcomes[k].stamp > b.outcomes[i].stamp + (MAX_ENDED - FORGET + 1))
  }

  lemma CloseIsStamped(b: Book, key: string)
    requires Stamped(b)
    requires key !in b.ended ==> forall i | 0 <= i < |b.outcomes| && b.outcomes[i].turn.key == key ::
               |b.recorded| + 1 > b.outcomes[i].stamp + (MAX_ENDED - FORGET + 1)
    ensures Stamped(Closed(b, key))
  {
    var t := Closed(b, key);
    assert b.recorded <= t.recorded && b.outcomes <= t.outcomes && |t.outcomes| <= |b.outcomes| + 1;
    forall i | 0 <= i < |t.outcomes| ensures i < |b.outcomes| ==> t.outcomes[i] == b.outcomes[i] { }
  }

  lemma {:induction false} RunIsStamped(ops: seq<Op>)
    ensures Stamped(Run(ops))
  {
    if ops != [] {
      var before, op := ops[..|ops| - 1], ops[|ops| - 1];
      RunIsStamped(before);
      var b := Run(before);
      if op.CloseTurn? {
        if op.key !in b.ended {
          forall i | 0 <= i < |b.outcomes| && b.outcomes[i].turn.key == op.key
            ensures |b.recorded| + 1 > b.outcomes[i].stamp + (MAX_ENDED - FORGET + 1)
          {
            var at: nat := b.outcomes[i].stamp - 1;
            if |b.recorded| - at <= MAX_ENDED - FORGET + 1 { ClosedKeyIsRemembered(before, at); }
          }
        }
        CloseIsStamped(b, op.key);
      }
    }
  }

  /** Two outcomes of one turn key have at least 2049 other closes between them. */
  lemma OutcomesOfOneKeyAreFarApart(ops: seq<Op>, i: nat, k: nat)
    requires i < k < |Run(ops).outcomes|
    requires Run(ops).outcomes[i].turn.key == Run(ops).outcomes[k].turn.key
    ensures Run(ops).outcomes[k].stamp - Run(ops).outcomes[i].stamp - 1 >= 2049
  {
    RunIsStamped(ops);
  }
}
