/**
 What the payload walk accepts, said without the walk: a tree of at most 4096 nodes and depth at most 12 that has
 no forbidden key.
 */
module PayloadTrees {
  import opened Prelude
  import opened Occurrences
  import opened PayloadIsolation
  import opened Picking

  // ------------------------------------------------------------------ the walk on a list of events

  predicate Fits(events: seq<Event>) {
    && |events| <= MAX_NODES
    && (forall i | 0 <= i < |events| :: events[i].depth <= MAX_DEPTH)
    && (forall i, j | 0 <= i < j < |events| && events[i].entry.value.Ref? ::
          events[i].entry.value != events[j].entry.value)
  }

  function Containers(events: seq<Event>): set<Addr> {
    set i | 0 <= i < |events| && events[i].entry.value.Ref? :: events[i].entry.value.addr
  }

  function ForbiddenFields(bad: string -> bool, events: seq<Event>): seq<Error> {
    if events == [] then []
    else
      var front, last := events[..|events| - 1], events[|events| - 1];
      ForbiddenFields(bad, front)
      + if Bad(bad, last.entry) then [ForbiddenField(last.trail, last.entry.key.value)] else []
  }

  /** The walk goes through exactly what fits; otherwise its last error is the limit it met. */
  lemma {:induction false} ScanMeaning(bad: string -> bool, events: seq<Event>)
    ensures var s := Scan(bad, START, events);
            if Fits(events) then s == Progress(|events|, false, Containers(events), ForbiddenFields(bad, events))
            else s.stopped && s.errors != [] && !s.errors[|s.errors| - 1].ForbiddenField?
  {
    if events != [] {
      var front, last := events[..|events| - 1], events[|events| - 1];
      ScanMeaning(bad, front);
      FitsOneMore(events);
      if Fits(front) { ContainersOneMore(events); }
    }
  }

  lemma FitsOneMore(events: seq<Event>)
    requires events != []
    ensures var front, last := events[..|events| - 1], events[|events| - 1];
            Fits(events) <==> Fits(front) && |events| <= MAX_NODES && last.depth <= MAX_DEPTH
                              && (last.entry.value.Ref? ==> last.entry.value.addr !in Containers(front))
  {
    var n := |events| - 1;
    var front, last := events[..n], events[n];
    if Fits(front) && last.entry.value.Ref? && last.entry.value.addr in Containers(front) {
      var i :| 0 <= i < n && front[i].entry.value.Ref? && front[i].entry.value.addr == last.entry.value.addr;
      assert events[i].entry.value == events[n].entry.value;
    }
    if Fits(events) {
      forall i, j | 0 <= i < j < n && front[i].entry.value.Ref? ensures front[i].entry.value != front[j].entry.value {
        assert events[i].entry.value != events[j].entry.value;
      }
      forall i | 0 <= i < n ensures front[i].depth <= MAX_DEPTH { assert events[i].depth <= MAX_DEPTH; }
    }
  }

  lemma ContainersOneMore(events: seq<Event>)
    requires events != []
    ensures var front, last := events[..|events| - 1], events[|events| - 1];
            Containers(events) == Containers(front) + if last.entry.value.Ref? then {last.entry.value.addr} else {}
  {
    var n := |events| - 1;
    var last := events[n];
    forall a
      ensures a in Containers(events) <==>
              a in Containers(events[..n]) || (last.entry.value.Ref? && a == last.entry.value.addr)
    {
      if a in Containers(events[..n]) {
        var i :| 0 <= i < n && events[..n][i].entry.value.Ref? && events[..n][i].entry.value.addr == a;
        assert events[i].entry.value.addr == a;
      }
      if a in Containers(events) {
        var i :| 0 <= i <= n && events[i].entry.value.Ref? && events[i].entry.value.addr == a;
        if i < n { assert events[..n][i].entry.value.addr == a; }
      }
    }
  }

  lemma {:induction false} ForbiddenMeaning(bad: string -> bool, events: seq<Event>, error: Error)
    ensures error in ForbiddenFields(bad, events)
            <==> exists e :: e in events && Bad(bad, e.entry) && error == ForbiddenField(e.trail, e.entry.key.value)
  {
    if events != [] {
      var front, last := events[..|events| - 1], events[|events| - 1];
      ForbiddenMeaning(bad, front, error);
      assert events == front + [last];
    }
  }

  // ------------------------------------------------------------------ the events are the trails

  function Tree(h: Heap, e: Entry, trail: Trail, depth: nat): seq<Event>
    requires depth <= MAX_DEPTH + 1
  {
    [Event(e, trail, depth)] + Below(h, e.value, trail, depth)
  }

  predicate Names(h: Heap, e: Entry, trail: Trail, depth: nat, t: Trail, x: Event) {
    At(h, e, t) == Some(x.entry) && x.trail == trail + t && x.depth == depth + |t|
  }

  /** Every event is what some trail leads to. */
  lemma {:induction false} Sound(h: Heap, e: Entry, trail: Trail, depth: nat, x: Event)
    requires depth <= MAX_DEPTH + 1 && x in Tree(h, e, trail, depth)
    ensures exists t :: Names(h, e, trail, depth, t, x)
    ensures x.depth <= MAX_DEPTH + 1
    decreases MAX_DEPTH + 1 - depth
  {
    if x == Event(e, trail, depth) {
      assert trail + [] == trail;
      assert Names(h, e, trail, depth, [], x);
    } else {
      var entries := h(e.value.addr);
      var k := SoundEntry(h, entries, trail, depth, |entries|, x);
      Sound(h, entries[k], trail + [k], depth + 1, x);
      var rest :| Names(h, entries[k], trail + [k], depth + 1, rest, x);
      var t := [k] + rest;
      assert t[1..] == rest;
      assert trail + [k] + rest == trail + t;
      assert Names(h, e, trail, depth, t, x);
    }
  }

  lemma {:induction false} SoundEntry(h: Heap, entries: seq<Entry>, trail: Trail, depth: nat, n: nat, x: Event)
      returns (k: nat)
    requires depth <= MAX_DEPTH && n <= |entries| && x in EventsOf(h, entries, trail, depth, n)
    ensures k < n
    ensures x in Tree(h, entries[k], trail + [k], depth + 1)
    decreases n
  {
    if x in Tree(h, entries[n - 1], trail + [n - 1], depth + 1) {
      k := n - 1;
    } else {
      k := SoundEntry(h, entries, trail, depth, n - 1, x);
    }
  }

  /** Every trail of the bounded depth is an event. */
  lemma {:induction false} Complete(h: Heap, e: Entry, trail: Trail, depth: nat, t: Trail)
    requires depth <= MAX_DEPTH + 1 && depth + |t| <= MAX_DEPTH + 1 && At(h, e, t).Some?
    ensures Event(At(h, e, t).value, trail + t, depth + |t|) in Tree(h, e, trail, depth)
    decreases |t|
  {
    if t == [] {
      assert trail + t == trail;
    } else {
      var entries, k, rest := h(e.value.addr), t[0], t[1..];
      Complete(h, entries[k], trail + [k], depth + 1, rest);
      assert trail + [k] + rest == trail + t;
      EntryEvents(h, entries, trail, depth, |entries|, k, Event(At(h, e, t).value, trail + t, depth + |t|));
    }
  }

  lemma {:induction false} EntryEvents(h: Heap, entries: seq<Entry>, trail: Trail, depth: nat, n: nat, k: nat, x: Event)
    requires depth <= MAX_DEPTH && k < n <= |entries| && x in Tree(h, entries[k], trail + [k], depth + 1)
    ensures x in EventsOf(h, entries, trail, depth, n)
    decreases n
  {
    if k < n - 1 { EntryEvents(h, entries, trail, depth, n - 1, k, x); }
  }

  predicate DistinctTrails(events: seq<Event>) {
    forall i, j | 0 <= i < j < |events| :: events[i].trail != events[j].trail
  }

  lemma {:induction false} TreeDistinct(h: Heap, e: Entry, trail: Trail, depth: nat)
    requires depth <= MAX_DEPTH + 1
    ensures DistinctTrails(Tree(h, e, trail, depth))
    decreases MAX_DEPTH + 1 - depth, 1, 0
  {
    if depth <= MAX_DEPTH && e.value.Ref? {
      var entries := h(e.value.addr);
      EntriesDistinct(h, entries, trail, depth, |entries|);
      forall y | y in EventsOf(h, entries, trail, depth, |entries|) ensures y.trail != trail {
        var k := SoundEntry(h, entries, trail, depth, |entries|, y);
        Sound(h, entries[k], trail + [k], depth + 1, y);
        var t :| Names(h, entries[k], trail + [k], depth + 1, t, y);
        assert |y.trail| > |trail|;
      }
    }
  }

  lemma {:induction false} EntriesDistinct(h: Heap, entries: seq<Entry>, trail: Trail, depth: nat, n: nat)
    requires depth <= MAX_DEPTH && n <= |entries|
    ensures DistinctTrails(EventsOf(h, entries, trail, depth, n))
    decreases MAX_DEPTH + 1 - depth, 0, n
  {
    if n > 0 {
      EntriesDistinct(h, entries, trail, depth, n - 1);
      TreeDistinct(h, entries[n - 1], trail + [n - 1], depth + 1);
      var a, b := EventsOf(h, entries, trail, depth, n - 1), Tree(h, entries[n - 1], trail + [n - 1], depth + 1);
      forall x, y | x in a && y in b ensures x.trail != y.trail {
        var k := SoundEntry(h, entries, trail, depth, n - 1, x);
        Sound(h, entries[k], trail + [k], depth + 1, x);
        var t :| Names(h, entries[k], trail + [k], depth + 1, t, x);
        Sound(h, entries[n - 1], trail + [n - 1], depth + 1, y);
        var u :| Names(h, entries[n - 1], trail + [n - 1], depth + 1, u, y);
        assert x.trail[|trail|] == k && y.trail[|trail|] == n - 1;
      }
    }
  }

  // ------------------------------------------------------------------ the limits in terms of trails

  lemma AllSound(h: Heap, payload: Value, x: Event)
    requires x in AllEvents(h, payload)
    ensures At(h, Root(payload), x.trail) == Some(x.entry)
    ensures x.depth == |x.trail|
  {
    Sound(h, Root(payload), [], 0, x);
    var t :| Names(h, Root(payload), [], 0, t, x);
    assert [] + t == t;
  }

  lemma AllComplete(h: Heap, payload: Value, t: Trail)
    requires Reached(h, payload, t) && |t| <= MAX_DEPTH + 1
    ensures Event(At(h, Root(payload), t).value, t, |t|) in AllEvents(h, payload)
  {
    Complete(h, Root(payload), [], 0, t);
    assert [] + t == t;
  }

  lemma {:induction false} ReachedPrefix(h: Heap, e: Entry, t: Trail, n: nat)
    requires At(h, e, t).Some? && n <= |t|
    ensures At(h, e, t[..n]).Some?
    decreases n
  {
    if n > 0 {
      ReachedPrefix(h, h(e.value.addr)[t[0]], t[1..], n - 1);
      assert t[..n][1..] == t[1..][..n - 1];
    }
  }

  ghost predicate WithinLimits(h: Heap, payload: Value) {
    DepthAtMost(h, payload, MAX_DEPTH) && IsTree(h, payload) && NodesAtMost(h, payload, MAX_NODES)
  }

  lemma FitsBoundsDepth(h: Heap, payload: Value)
    requires Fits(AllEvents(h, payload))
    ensures DepthAtMost(h, payload, MAX_DEPTH)
  {
    forall t | Reached(h, payload, t) ensures |t| <= MAX_DEPTH {
      if |t| > MAX_DEPTH {
        ReachedPrefix(h, Root(payload), t, MAX_DEPTH + 1);
        AllComplete(h, payload, t[..MAX_DEPTH + 1]);
        assert false;
      }
    }
  }

  lemma FitsIsTree(h: Heap, payload: Value)
    requires Fits(AllEvents(h, payload))
    ensures IsTree(h, payload)
  {
    FitsBoundsDepth(h, payload);
    var all := AllEvents(h, payload);
    forall t, u | Reached(h, payload, t) && Reached(h, payload, u)
                  && At(h, Root(payload), t).value.value.Ref?
                  && At(h, Root(payload), t).value.value == At(h, Root(payload), u).value.value
      ensures t == u
    {
      AllComplete(h, payload, t);
      AllComplete(h, payload, u);
      var i :| 0 <= i < |all| && all[i] == Event(At(h, Root(payload), t).value, t, |t|);
      var j :| 0 <= j < |all| && all[j] == Event(At(h, Root(payload), u).value, u, |u|);
      assert i == j;
    }
  }

  function TrailsOf(events: seq<Event>): (ts: seq<Trail>)
    ensures |ts| == |events| && forall i | 0 <= i < |ts| :: ts[i] == events[i].trail
  {
    seq(|events|, i requires 0 <= i < |events| => events[i].trail)
  }

  lemma FitsBoundsNodes(h: Heap, payload: Value)
    requires Fits(AllEvents(h, payload))
    ensures NodesAtMost(h, payload, MAX_NODES)
  {
    FitsBoundsDepth(h, payload);
    var all := TrailsOf(AllEvents(h, payload));
    forall ts: seq<Trail> | NoRepeats(ts) && (forall i | 0 <= i < |ts| :: Reached(h, payload, ts[i]))
      ensures |ts| <= MAX_NODES
    {
      forall i | 0 <= i < |ts| ensures ts[i] in all { Listed(h, payload, ts[i]); }
      NoLonger(ts, all);
    }
  }

  lemma Listed(h: Heap, payload: Value, t: Trail)
    requires Reached(h, payload, t) && |t| <= MAX_DEPTH + 1
    ensures t in TrailsOf(AllEvents(h, payload))
  {
    var all := AllEvents(h, payload);
    AllComplete(h, payload, t);
    var i :| 0 <= i < |all| && all[i] == Event(At(h, Root(payload), t).value, t, |t|);
    assert TrailsOf(all)[i] == t;
  }

  lemma FitsIffLimits(h: Heap, payload: Value)
    ensures Fits(AllEvents(h, payload)) <==> WithinLimits(h, payload)
  {
    if Fits(AllEvents(h, payload)) {
      FitsBoundsDepth(h, payload);
      FitsIsTree(h, payload);
      FitsBoundsNodes(h, payload);
    }
    if WithinLimits(h, payload) {
      var all := AllEvents(h, payload);
      TreeDistinct(h, Root(payload), [], 0);
      assert DistinctTrails(all);
      forall i | 0 <= i < |all|
        ensures At(h, Root(payload), all[i].trail) == Some(all[i].entry) && all[i].depth <= MAX_DEPTH
      {
        AllSound(h, payload, all[i]);
        assert Reached(h, payload, all[i].trail);
      }
      assert forall i | 0 <= i < |all| :: Reached(h, payload, TrailsOf(all)[i]);
      assert NoRepeats(TrailsOf(all));
      assert |TrailsOf(all)| <= MAX_NODES;
    }
  }

  // ------------------------------------------------------------------ the theorems

  /** What `validate_payload_isolation_v1` returns. */
  function ErrorsOf(bad: string -> bool, h: Heap, payload: Value): seq<Error> {
    Scan(bad, START, AllEvents(h, payload)).errors
  }

  /** Within the limits, the errors are exactly the forbidden fields, wherever they are. */
  lemma EveryForbiddenFieldReported(bad: string -> bool, h: Heap, payload: Value, error: Error)
    requires WithinLimits(h, payload)
    ensures error in ErrorsOf(bad, h, payload)
            <==> exists t :: Reached(h, payload, t) && Bad(bad, At(h, Root(payload), t).value)
                             && error == ForbiddenField(t, At(h, Root(payload), t).value.key.value)
  {
    var all := AllEvents(h, payload);
    FitsIffLimits(h, payload);
    ScanMeaning(bad, all);
    ForbiddenMeaning(bad, all, error);
    if error in ErrorsOf(bad, h, payload) {
      var e :| e in all && Bad(bad, e.entry) && error == ForbiddenField(e.trail, e.entry.key.value);
      AllSound(h, payload, e);
      assert Reached(h, payload, e.trail);
    }
    forall t | Reached(h, payload, t) && Bad(bad, At(h, Root(payload), t).value)
               && error == ForbiddenField(t, At(h, Root(payload), t).value.key.value)
      ensures error in ErrorsOf(bad, h, payload)
    {
      AllComplete(h, payload, t);
      assert Bad(bad, Event(At(h, Root(payload), t).value, t, |t|).entry);
    }
  }

  /** Outside the limits the last error names the limit that was met. */
  lemma LimitReported(bad: string -> bool, h: Heap, payload: Value)
    requires !WithinLimits(h, payload)
    ensures var errors := ErrorsOf(bad, h, payload); errors != [] && !errors[|errors| - 1].ForbiddenField?
  {
    FitsIffLimits(h, payload);
    ScanMeaning(bad, AllEvents(h, payload));
  }

  lemma CleanIffNoForbiddenKey(bad: string -> bool, h: Heap, payload: Value)
    requires WithinLimits(h, payload)
    ensures ErrorsOf(bad, h, payload) == [] <==> NoForbiddenKey(bad, h, payload)
  {
    var errors := ErrorsOf(bad, h, payload);
    if errors != [] {
      EveryForbiddenFieldReported(bad, h, payload, errors[0]);
      assert errors[0] in errors;
    }
    forall t | Reached(h, payload, t) && Bad(bad, At(h, Root(payload), t).value) ensures errors != [] {
      EveryForbiddenFieldReported(bad, h, payload, ForbiddenField(t, At(h, Root(payload), t).value.key.value));
    }
  }

  // ------------------------------------------------------------------ which keys are forbidden

  /** The words of `FORBIDDEN_PAYLOAD_KEYS`. */
  predicate IsForbiddenWord(word: string) {
    || word == "userid" || word == "accountid" || word == "sessionid" || word == "apikey" || word == "oauthtoken"
    || word == "authtoken" || word == "accesstoken" || word == "refreshtoken" || word == "bearertoken"
    || word == "authorization" || word == "cookie" || word == "password" || word == "clientsecret"
    || word == "privatekey" || word == "secretkey" || word == "credential" || word == "credentials"
  }

  /** The key, lower-cased and without its other characters, is a forbidden word. */
  ghost predicate HidesForbiddenWord(text: Text, key: string) {
    exists word :: IsForbiddenWord(word) && Picks(text.alnum, text.lower(key), word)
  }

  lemma {:induction false} KeepPicks(p: char -> bool, s: string)
    ensures Picks(p, s, Keep(p, s))
  {
    if s == "" {
      PicksNone(p);
    } else {
      KeepPicks(p, s[1..]);
      PicksMore(p, s, Keep(p, s[1..]));
    }
  }

  /** The key test of the walk, said without computing the normalised key. */
  lemma ForbidsIff(text: Text, key: string)
    ensures Forbids(text)(key) <==> HidesForbiddenWord(text, key)
  {
    var p, s := text.alnum, text.lower(key);
    KeepPicks(p, s);
    ForbiddenWords(Keep(p, s));
    forall word | IsForbiddenWord(word) && Picks(p, s, word) ensures word == Keep(p, s) {
      PicksOne(p, s, word, Keep(p, s));
    }
  }

  lemma ForbiddenWords(word: string)
    ensures word in FORBIDDEN <==> IsForbiddenWord(word)
  {
  }

  /** A separator does not hide a forbidden key, whatever else counts as alphanumeric. */
  lemma ApiKeyIsForbidden(text: Text)
    requires text.lower("api_key") == "api_key" && !text.alnum('_')
    requires forall c | c in "apikey" :: text.alnum(c)
    ensures Forbids(text)("api_key")
  {
    var s, at := "api_key", [0, 1, 2, 4, 5, 6];
    assert PicksAt(text.alnum, s, "apikey", at) by {
      forall k: nat | k < |s| ensures text.alnum(s[k]) <==> k in at {
        if k != 3 { assert s[k] in "apikey"; }
      }
    }
    assert Picks(text.alnum, s, "apikey");
    ForbidsIff(text, s);
  }

  /** No dict entry that the payload reaches has a key that hides a forbidden word. */
  ghost predicate NoHiddenWord(text: Text, h: Heap, payload: Value) {
    forall t | Reached(h, payload, t) ::
      var key := At(h, Root(payload), t).value.key;
      key.Some? ==> !HidesForbiddenWord(text, key.value)
  }

  lemma NoHiddenWordIff(text: Text, h: Heap, payload: Value)
    ensures NoHiddenWord(text, h, payload) <==> NoForbiddenKey(Forbids(text), h, payload)
  {
    forall t | Reached(h, payload, t)
      ensures var key := At(h, Root(payload), t).value.key;
              Bad(Forbids(text), At(h, Root(payload), t).value) <==> key.Some? && HidesForbiddenWord(text, key.value)
    {
      var key := At(h, Root(payload), t).value.key;
      if key.Some? { ForbidsIff(text, key.value); }
    }
  }

  /** A small tree without forbidden keys. */
  ghost predicate Acceptable(text: Text, h: Heap, payload: Value) {
    DepthAtMost(h, payload, 12) && IsTree(h, payload) && NodesAtMost(h, payload, 4096) && NoHiddenWord(text, h, payload)
  }

  /** A payload is accepted exactly when it is acceptable, on any heap. */
  lemma AcceptedIff(text: Text, h: Heap, payload: Value)
    ensures ErrorsOf(Forbids(text), h, payload) == [] <==> Acceptable(text, h, payload)
  {
    NoHiddenWordIff(text, h, payload);
    if WithinLimits(h, payload) {
      CleanIffNoForbiddenKey(Forbids(text), h, payload);
    } else {
      LimitReported(Forbids(text), h, payload);
    }
  }

  /** `validate_payload_isolation_v1`. */
  method Validate(text: Text, heap: Heap, payload: Value) returns (errors: seq<Error>, calls: nat)
    ensures errors == [] <==> Acceptable(text, heap, payload)
    ensures errors == ErrorsOf(Forbids(text), heap, payload)
    ensures calls <= 4097
  {
    var walk := new Walk(Forbids(text), heap);
    walk.Visit(payload, [], 0);
    ScanFirst(Forbids(text), START, Event(Root(payload), [], 0), Below(heap, payload, [], 0));
    AcceptedIff(text, heap, payload);
    return walk.errors, walk.nodes;
  }

  lemma {:induction false} StopReason(bad: string -> bool, events: seq<Event>)
    requires Scan(bad, START, events).stopped
    ensures var errors := Scan(bad, START, events).errors;
            && errors != []
            && (errors[|errors| - 1] == TooManyNodes ==> |events| > MAX_NODES)
            && (errors[|errors| - 1] == TooDeep ==> exists e :: e in events && e.depth > MAX_DEPTH)
  {
    var front, last := events[..|events| - 1], events[|events| - 1];
    assert events == front + [last];
    if Scan(bad, START, front).stopped {
      StopReason(bad, front);
    } else {
      ScanMeaning(bad, front);
    }
  }

  /** Within the depth and node limits it answers "must be acyclic" exactly when some container is reached twice. */
  lemma SharedIffRejected(bad: string -> bool, h: Heap, payload: Value)
    requires DepthAtMost(h, payload, MAX_DEPTH) && NodesAtMost(h, payload, MAX_NODES)
    ensures NotAcyclic in ErrorsOf(bad, h, payload) <==> !IsTree(h, payload)
  {
    var all, errors := AllEvents(h, payload), ErrorsOf(bad, h, payload);
    if IsTree(h, payload) {
      EveryForbiddenFieldReported(bad, h, payload, NotAcyclic);
    } else {
      FitsIffLimits(h, payload);
      ScanMeaning(bad, all);
      StopReason(bad, all);
      TreeDistinct(h, Root(payload), [], 0);
      forall x | x in all ensures x.depth <= MAX_DEPTH && Reached(h, payload, x.trail) { AllSound(h, payload, x); }
      assert forall i | 0 <= i < |all| :: all[i] in all && TrailsOf(all)[i] == all[i].trail;
      assert NoRepeats(TrailsOf(all));
      assert |TrailsOf(all)| <= MAX_NODES;
      assert errors[|errors| - 1] == NotAcyclic;
    }
  }

  /** A list that holds one list twice. */
  function Diamond(a: Addr): seq<Entry> {
    if a == 0 then [Entry(None, Ref(1)), Entry(None, Ref(1))] else []
  }

  lemma DiamondIsShallow(t: Trail)
    ensures |t| > 1 ==> At(Diamond, Root(Ref(0)), t) == None
  {
    if |t| > 1 && t[0] < 2 { assert At(Diamond, Root(Ref(0)), t) == At(Diamond, Entry(None, Ref(1)), t[1..]); }
  }

  /** Nothing in it is cyclic, yet it is rejected as cyclic. */
  lemma AcyclicIsNotEnough(bad: string -> bool)
    ensures DepthAtMost(Diamond, Ref(0), 1)
    ensures NotAcyclic in ErrorsOf(bad, Diamond, Ref(0))
  {
    var payload := Ref(0);
    forall t | Reached(Diamond, payload, t) ensures |t| <= 1 && t in [[], [0], [1]] {
      DiamondIsShallow(t);
      if |t| == 1 { assert t == [t[0]]; }
    }
    forall ts: seq<Trail> | NoRepeats(ts) && (forall i | 0 <= i < |ts| :: Reached(Diamond, payload, ts[i]))
      ensures |ts| <= 3
    {
      NoLonger(ts, [[], [0], [1]]);
    }
    assert [0][1..] == [] == [1][1..];
    assert At(Diamond, Root(payload), [0]) == Some(Entry(None, Ref(1))) == At(Diamond, Root(payload), [1]);
    SharedIffRejected(bad, Diamond, payload);
  }
}
