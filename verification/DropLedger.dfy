/**
 The drop table of the Hermes capture: (kind, reason) -> count pairs not yet written, the pairs a
 running `_write_drops` call has taken over, and the pairs already handed to the file.

 A table of counts is a multiset of its keys.
 */
module DropLedger {
  datatype Job = Job(serial: nat, kind: string)
  datatype Reason = QueueFull | Closing | ChildFailed | Unavailable
  datatype Key = Key(kind: string, reason: Reason)
  datatype Drop = Drop(job: Job, reason: Reason)

  const PROJECTION: Key := Key("opportunity_record", Closing)

  datatype Ledger = Ledger(
    pending: multiset<Key>,   // self._drops
    rows: multiset<Key>,      // `pending` inside the _write_drops call that holds self._io
    written: multiset<Key>,   // rows handed to drops.jsonl; self.counts['dropped'] is their number
    log: seq<Drop>,           // history: every job counted, in order
    projections: nat)         // history: projections close() counted

  const EMPTY: Ledger := Ledger(multiset{}, multiset{}, multiset{}, [], 0)

  function Count(l: Ledger, job: Job, reason: Reason): Ledger {
    l.(pending := l.pending + multiset{Key(job.kind, reason)}, log := l.log + [Drop(job, reason)])
  }

  function CountProjections(l: Ledger, n: nat): Ledger {
    l.(pending := l.pending[PROJECTION := l.pending[PROJECTION] + n], projections := l.projections + n)
  }

  function Swap(l: Ledger): Ledger {
    l.(rows := l.rows + l.pending, pending := multiset{})
  }

  function WriteRow(l: Ledger, key: Key): Ledger {
    l.(written := l.written[key := l.written[key] + l.rows[key]], rows := l.rows[key := 0])
  }

  /** How often a key was counted. */
  ghost function KeyTimes(log: seq<Drop>, key: Key): nat {
    if log == [] then 0
    else
      var last := log[|log| - 1];
      KeyTimes(log[..|log| - 1], key) + if Key(last.job.kind, last.reason) == key then 1 else 0
  }

  /** How often a job was counted. */
  ghost function JobTimes(log: seq<Drop>, j: Job): nat {
    if log == [] then 0
    else JobTimes(log[..|log| - 1], j) + if log[|log| - 1].job == j then 1 else 0
  }

  /** Each counted drop is pending, being written or written, and nothing else is. */
  ghost predicate Balanced(l: Ledger) {
    forall key ::
      l.pending[key] + l.rows[key] + l.written[key] ==
      KeyTimes(l.log, key) + if key == PROJECTION then l.projections else 0
  }

  lemma CountKeepsBalance(l: Ledger, job: Job, reason: Reason)
    requires Balanced(l)
    ensures Balanced(Count(l, job, reason))
  {
  }

  lemma WritingKeepsBalance(l: Ledger, key: Key, n: nat)
    requires Balanced(l)
    ensures Balanced(CountProjections(l, n)) && Balanced(Swap(l)) && Balanced(WriteRow(l, key))
  {
  }

  ghost function KeysOf(log: seq<Drop>): multiset<Key> {
    if log == [] then multiset{}
    else
      var last := log[|log| - 1];
      KeysOf(log[..|log| - 1]) + multiset{Key(last.job.kind, last.reason)}
  }

  lemma {:induction false} KeysOfTimes(log: seq<Drop>, key: Key)
    ensures KeysOf(log)[key] == KeyTimes(log, key) && |KeysOf(log)| == |log|
  {
    if log != [] { KeysOfTimes(log[..|log| - 1], key); }
  }

  /** The numbers `stats` and the drop rows add up to are the numbers of drops counted. */
  lemma BalancedTotals(l: Ledger)
    requires Balanced(l)
    ensures |l.pending| + |l.rows| + |l.written| == |l.log| + l.projections
  {
    var counted := KeysOf(l.log) + multiset{}[PROJECTION := l.projections];
    forall key ensures (l.pending + l.rows + l.written)[key] == counted[key] {
      KeysOfTimes(l.log, key);
    }
    assert l.pending + l.rows + l.written == counted;
    KeysOfTimes(l.log, PROJECTION);
    var none: multiset<Key> := multiset{};
    assert |none[PROJECTION := l.projections]| == l.projections;
    assert |counted| == |l.log| + l.projections;
    assert |l.pending + l.rows + l.written| == |l.pending + l.rows| + |l.written|;
  }

  /** A job counted at two positions is counted at least twice. */
  lemma {:induction false} TwoEntries(log: seq<Drop>, i: nat, k: nat)
    requires i < k < |log| && log[i].job == log[k].job
    ensures JobTimes(log, log[i].job) >= 2
  {
    if k < |log| - 1 {
      TwoEntries(log[..|log| - 1], i, k);
    } else {
      OneEntry(log[..k], i);
    }
  }

  lemma {:induction false} OneEntry(log: seq<Drop>, i: nat)
    requires i < |log|
    ensures JobTimes(log, log[i].job) >= 1
  {
    if i < |log| - 1 { OneEntry(log[..|log| - 1], i); }
  }
}
