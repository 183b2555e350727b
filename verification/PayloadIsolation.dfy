/**
 Payload isolation of the bridge protocol: a guarded walk over a payload whose containers may be shared or cyclic.
 Lower-casing and the alphanumeric test of key characters are parameters (`Text`); a path into the payload is the
 sequence of entry positions instead of its rendered text.
 */
module PayloadIsolation {
  import opened Prelude
  import opened Occurrences

  const MAX_DEPTH := 12
  const MAX_NODES := 4096

  const FORBIDDEN: set<string> := {
    "userid", "accountid", "sessionid", "apikey", "oauthtoken", "authtoken", "accesstoken", "refreshtoken",
    "bearertoken", "authorization", "cookie", "password", "clientsecret", "privatekey", "secretkey",
    "credential", "credentials"
  }

  datatype Text = Text(lower: string -> string, alnum: char -> bool)

  function Keep(p: char -> bool, s: string): string {
    if s == "" then "" else (if p(s[0]) then [s[0]] else "") + Keep(p, s[1..])
  }

  /** The test for keys that `_normalize_payload_key` takes into the forbidden set. */
  function Forbids(text: Text): string -> bool {
    (key: string) => Keep(text.alnum, text.lower(key)) in FORBIDDEN
  }

  // ------------------------------------------------------------------ payloads

  type Addr = nat

  datatype Value = Scalar | Ref(addr: Addr)

  /** An entry of a dict has a key, an entry of a list has none. */
  datatype Entry = Entry(key: Option<string>, value: Value)

  /** The containers, by identity: the entries of each list or dict in iteration order. */
  type Heap = Addr -> seq<Entry>

  type Trail = seq<nat>

  /** The entry that a trail of positions leads to. */
  function At(h: Heap, e: Entry, t: Trail): Option<Entry>
    decreases |t|
  {
    if t == [] then Some(e)
    else if e.value.Ref? && t[0] < |h(e.value.addr)| then At(h, h(e.value.addr)[t[0]], t[1..])
    else None
  }

  function Root(payload: Value): Entry { Entry(None, payload) }

  predicate Reached(h: Heap, payload: Value, t: Trail) {
    At(h, Root(payload), t).Some?
  }

  // ------------------------------------------------------------------ what an acceptable payload is

  ghost predicate DepthAtMost(h: Heap, payload: Value, depth: nat) {
    forall t | Reached(h, payload, t) :: |t| <= depth
  }

  /** No container is reached in two ways; in particular none contains itself. */
  ghost predicate IsTree(h: Heap, payload: Value) {
    forall t, u | Reached(h, payload, t) && Reached(h, payload, u)
                  && At(h, Root(payload), t).value.value.Ref?
                  && At(h, Root(payload), t).value.value == At(h, Root(payload), u).value.value
      :: t == u
  }

  ghost predicate NodesAtMost(h: Heap, payload: Value, n: nat) {
    forall ts: seq<Trail> | NoRepeats(ts) && (forall i | 0 <= i < |ts| :: Reached(h, payload, ts[i])) :: |ts| <= n
  }

  ghost predicate NoForbiddenKey(bad: string -> bool, h: Heap, payload: Value) {
    forall t | Reached(h, payload, t) :: !Bad(bad, At(h, Root(payload), t).value)
  }

  predicate Bad(bad: string -> bool, e: Entry) {
    e.key.Some? && bad(e.key.value)
  }

  // ------------------------------------------------------------------ the walk, event by event

  datatype Event = Event(entry: Entry, trail: Trail, depth: nat)

  datatype Error = TooManyNodes | TooDeep | NotAcyclic | ForbiddenField(trail: Trail, key: string)

  /** The variables `visit` shares: nodes, stopped, seen, errors. */
  datatype Progress = Progress(nodes: nat, stopped: bool, seen: set<Addr>, errors: seq<Error>)

  const START := Progress(0, false, {}, [])

  function CheckKey(bad: string -> bool, s: Progress, e: Event): Progress {
    if !s.stopped && Bad(bad, e.entry)
    then s.(errors := s.errors + [ForbiddenField(e.trail, e.entry.key.value)])
    else s
  }

  function Stop(s: Progress, error: Error): Progress {
    s.(stopped := true, errors := s.errors + [error])
  }

  function Enter(s: Progress, value: Value, depth: nat): Progress {
    if s.stopped then s
    else
      var counted := s.(nodes := s.nodes + 1);
      if counted.nodes > MAX_NODES then Stop(counted, TooManyNodes)
      else if depth > MAX_DEPTH then Stop(counted, TooDeep)
      else if value.Scalar? then counted
      else if value.addr in s.seen then Stop(counted, NotAcyclic)
      else counted.(seen := s.seen + {value.addr})
  }

  function Step(bad: string -> bool, s: Progress, e: Event): Progress {
    Enter(CheckKey(bad, s, e), e.entry.value, e.depth)
  }

  function Scan(bad: string -> bool, s: Progress, events: seq<Event>): Progress {
    if events == [] then s else Step(bad, Scan(bad, s, events[..|events| - 1]), events[|events| - 1])
  }

  /** The first n entries of a container at `trail` and everything below them, in preorder, down to depth 13. */
  function EventsOf(h: Heap, entries: seq<Entry>, trail: Trail, depth: nat, n: nat): seq<Event>
    requires depth <= MAX_DEPTH && n <= |entries|
    decreases MAX_DEPTH + 1 - depth, n
  {
    if n == 0 then []
    else
      var child := trail + [n - 1];
      EventsOf(h, entries, trail, depth, n - 1)
      + ([Event(entries[n - 1], child, depth + 1)] + Below(h, entries[n - 1].value, child, depth + 1))
  }

  function Below(h: Heap, value: Value, trail: Trail, depth: nat): seq<Event>
    requires depth <= MAX_DEPTH + 1
    decreases MAX_DEPTH + 1 - depth
  {
    if depth > MAX_DEPTH || value.Scalar? then []
    else EventsOf(h, h(value.addr), trail, depth, |h(value.addr)|)
  }

  /** What one entry does to the walk: its key, its value, and all below. */
  ghost function Run(bad: string -> bool, s: Progress, h: Heap, e: Entry, trail: Trail, depth: nat): Progress
    requires depth <= MAX_DEPTH + 1
  {
    Scan(bad, Step(bad, s, Event(e, trail, depth)), Below(h, e.value, trail, depth))
  }

  ghost function RunFirst(
      bad: string -> bool, s: Progress, h: Heap, entries: seq<Entry>, trail: Trail, depth: nat, n: nat): Progress
    requires depth <= MAX_DEPTH && n <= |entries|
  {
    if n == 0 then s
    else Run(bad, RunFirst(bad, s, h, entries, trail, depth, n - 1), h, entries[n - 1], trail + [n - 1], depth + 1)
  }

  function AllEvents(h: Heap, payload: Value): seq<Event> {
    [Event(Root(payload), [], 0)] + Below(h, payload, [], 0)
  }

  // ------------------------------------------------------------------ the validator

  class Walk {
    const bad: string -> bool
    const heap: Heap
    var nodes: nat
    var stopped: bool
    var seen: set<Addr>
    var errors: seq<Error>

    constructor (bad: string -> bool, heap: Heap)
      ensures this.bad == bad && this.heap == heap
      ensures View() == START
    {
      this.bad, this.heap := bad, heap;
      nodes, stopped, seen, errors := 0, false, {}, [];
    }

    ghost function View(): Progress
      reads this
    {
      Progress(nodes, stopped, seen, errors)
    }

    /** `visit`; every call is counted, since nothing is called once the walk has stopped. */
    method Visit(value: Value, trail: Trail, depth: nat)
      requires depth <= MAX_DEPTH + 1 && !stopped && nodes <= MAX_NODES
      modifies this
      ensures View() == Scan(bad, Enter(old(View()), value, depth), Below(heap, value, trail, depth))
      ensures nodes <= MAX_NODES + 1 && (nodes > MAX_NODES ==> stopped)
      decreases MAX_DEPTH + 1 - depth, 2
    {
      ghost var entered := Enter(View(), value, depth);
      nodes := nodes + 1;
      if nodes > MAX_NODES {
        errors, stopped := errors + [TooManyNodes], true;
      } else if depth > MAX_DEPTH {
        errors, stopped := errors + [TooDeep], true;
      } else if value.Ref? && value.addr in seen {
        errors, stopped := errors + [NotAcyclic], true;
      } else if value.Ref? {
        seen := seen + {value.addr};
        assert View() == entered;
        VisitEntries(heap(value.addr), trail, depth);
        return;
      }
      assert View() == entered;
      NothingBelow(bad, entered, heap, value, trail, depth);
    }

    /** The loop over the entries of a list or dict. */
    method VisitEntries(entries: seq<Entry>, trail: Trail, depth: nat)
      requires depth <= MAX_DEPTH && !stopped && nodes <= MAX_NODES
      modifies this
      ensures View() == Scan(bad, old(View()), EventsOf(heap, entries, trail, depth, |entries|))
      ensures nodes <= MAX_NODES + 1 && (nodes > MAX_NODES ==> stopped)
      decreases MAX_DEPTH + 1 - depth, 1
    {
      ghost var entered := View();
      for i := 0 to |entries|
        invariant !stopped && nodes <= MAX_NODES
        invariant View() == RunFirst(bad, entered, heap, entries, trail, depth, i)
      {
        VisitEntry(entries[i], trail + [i], depth + 1);
        if stopped {
          StoppedRest(bad, entered, heap, entries, trail, depth, i + 1, |entries|);
          break;
        }
      }
      RunFirstIsScan(bad, entered, heap, entries, trail, depth, |entries|);
    }

    /** One round of that loop: the key of a dict entry is checked before its value is visited. */
    method VisitEntry(entry: Entry, trail: Trail, depth: nat)
      requires depth <= MAX_DEPTH + 1 && !stopped && nodes <= MAX_NODES
      modifies this
      ensures View() == Run(bad, old(View()), heap, entry, trail, depth)
      ensures nodes <= MAX_NODES + 1 && (nodes > MAX_NODES ==> stopped)
      decreases MAX_DEPTH + 1 - depth, 3
    {
      ghost var before := View();
      if entry.key.Some? && bad(entry.key.value) {
        errors := errors + [ForbiddenField(trail, entry.key.value)];
      }
      assert View() == CheckKey(bad, before, Event(entry, trail, depth));
      Visit(entry.value, trail, depth);
    }
  }

  lemma {:induction false} ScanConcat(bad: string -> bool, s: Progress, a: seq<Event>, b: seq<Event>)
    ensures Scan(bad, s, a + b) == Scan(bad, Scan(bad, s, a), b)
  {
    if b == [] {
      assert a + b == a;
    } else {
      assert (a + b)[..|a + b| - 1] == a + b[..|b| - 1];
      ScanConcat(bad, s, a, b[..|b| - 1]);
    }
  }

  lemma ScanFirst(bad: string -> bool, s: Progress, e: Event, rest: seq<Event>)
    ensures Scan(bad, s, [e] + rest) == Scan(bad, Step(bad, s, e), rest)
  {
    ScanConcat(bad, s, [e], rest);
    assert [e][..0] == [];
  }

  lemma {:induction false} RunFirstIsScan(
      bad: string -> bool, s: Progress, h: Heap, entries: seq<Entry>, trail: Trail, depth: nat, n: nat)
    requires depth <= MAX_DEPTH && n <= |entries|
    ensures RunFirst(bad, s, h, entries, trail, depth, n) == Scan(bad, s, EventsOf(h, entries, trail, depth, n))
    decreases n
  {
    if n > 0 {
      RunFirstIsScan(bad, s, h, entries, trail, depth, n - 1);
      var child := trail + [n - 1];
      var e, rest := Event(entries[n - 1], child, depth + 1), Below(h, entries[n - 1].value, child, depth + 1);
      ScanConcat(bad, s, EventsOf(h, entries, trail, depth, n - 1), [e] + rest);
      ScanFirst(bad, Scan(bad, s, EventsOf(h, entries, trail, depth, n - 1)), e, rest);
    }
  }

  lemma {:induction false} StoppedScan(bad: string -> bool, s: Progress, events: seq<Event>)
    requires s.stopped
    ensures Scan(bad, s, events) == s
  {
    if events != [] { StoppedScan(bad, s, events[..|events| - 1]); }
  }

  lemma {:induction false} StoppedRest(
      bad: string -> bool, s: Progress, h: Heap, entries: seq<Entry>, trail: Trail, depth: nat, i: nat, n: nat)
    requires depth <= MAX_DEPTH && i <= n <= |entries|
    requires RunFirst(bad, s, h, entries, trail, depth, i).stopped
    ensures RunFirst(bad, s, h, entries, trail, depth, n) == RunFirst(bad, s, h, entries, trail, depth, i)
    decreases n
  {
    if i < n {
      StoppedRest(bad, s, h, entries, trail, depth, i, n - 1);
      StoppedRun(bad, RunFirst(bad, s, h, entries, trail, depth, n - 1), h, entries[n - 1], trail + [n - 1], depth + 1);
    }
  }

  lemma NothingBelow(bad: string -> bool, s: Progress, h: Heap, value: Value, trail: Trail, depth: nat)
    requires depth <= MAX_DEPTH + 1 && (s.stopped || value.Scalar?)
    ensures Scan(bad, s, Below(h, value, trail, depth)) == s
  {
    if s.stopped { StoppedScan(bad, s, Below(h, value, trail, depth)); }
  }

  lemma StoppedRun(bad: string -> bool, s: Progress, h: Heap, e: Entry, trail: Trail, depth: nat)
    requires depth <= MAX_DEPTH + 1 && s.stopped
    ensures Run(bad, s, h, e, trail, depth) == s
  {
    StoppedScan(bad, s, Below(h, e.value, trail, depth));
  }
}
