// The hash-chained run events (corvus/store.py). SHA-256 of the canonical JSON is an injective function of the hashed
// fields whose range leaves out the all-zero genesis value; appends exclude each other.
module TraceStore {
  type RunId = nat

  // The event's type, phase, redacted payload and time of creation.
  datatype Event = Event(eventType: string, phase: string, payload: string, createdAt: int)
  datatype Hash = Genesis | Sha256(run: RunId, sequence: int, event: Event, previous: Hash)
  datatype Row = Row(run: RunId, sequence: int, event: Event, previous: Hash, hash: Hash)

  function HashOf(row: Row): Hash {
    Sha256(row.run, row.sequence, row.event, row.previous)
  }

  // ---- Reading one run -------------------------------------------------------------------------------------------

  function InsertBySequence(events: seq<Row>, row: Row): (r: seq<Row>)
    ensures forall x :: x in r <==> x in events || x == row
  {
    if events == [] || events[|events| - 1].sequence <= row.sequence then events + [row]
    else InsertBySequence(events[..|events| - 1], row) + [events[|events| - 1]]
  }

  // The rows of one run in order of their sequence numbers, as the table query gives them.
  function EventsOf(rows: seq<Row>, run: RunId): (r: seq<Row>)
    ensures forall x :: x in r <==> x in rows && x.run == run
  {
    if rows == [] then []
    else
      var last := rows[|rows| - 1];
      var others := EventsOf(rows[..|rows| - 1], run);
      if last.run == run then InsertBySequence(others, last) else others
  }

  predicate Ascending(events: seq<Row>) {
    forall i, k :: 0 <= i < k < |events| ==> events[i].sequence < events[k].sequence
  }

  // The table's uniqueness constraint on run and sequence number.
  predicate UniqueNumbers(rows: seq<Row>) {
    forall i, k :: 0 <= i < k < |rows| && rows[i].run == rows[k].run ==> rows[i].sequence != rows[k].sequence
  }

  lemma {:induction false} InsertKeepsOrder(events: seq<Row>, row: Row)
    requires Ascending(events) && forall x :: x in events ==> x.sequence != row.sequence
    ensures Ascending(InsertBySequence(events, row))
  {
    if events != [] && events[|events| - 1].sequence > row.sequence {
      var front := events[..|events| - 1];
      InsertKeepsOrder(front, row);
      assert forall x :: x in InsertBySequence(front, row) ==> x.sequence < events[|events| - 1].sequence;
    }
  }

  lemma {:induction false} EventsAscend(rows: seq<Row>, run: RunId)
    requires UniqueNumbers(rows)
    ensures Ascending(EventsOf(rows, run))
  {
    if rows != [] {
      EventsAscend(rows[..|rows| - 1], run);
      if rows[|rows| - 1].run == run {
        InsertKeepsOrder(EventsOf(rows[..|rows| - 1], run), rows[|rows| - 1]);
      }
    }
  }

  // ---- What verification means -----------------------------------------------------------------------------------

  predicate Linked(events: seq<Row>, i: nat)
    requires i < |events|
  {
    && events[i].previous == (if i == 0 then Genesis else events[i - 1].hash)
    && events[i].hash == HashOf(events[i])
  }

  predicate Verified(events: seq<Row>) {
    events != [] && forall i :: 0 <= i < |events| ==> Linked(events, i)
  }

  function Head(events: seq<Row>): Hash {
    if events == [] then Genesis else events[|events| - 1].hash
  }

  lemma Shorter(events: seq<Row>, n: nat)
    requires Verified(events) && 0 < n <= |events|
    ensures Verified(events[..n])
  {
    forall i | 0 <= i < n ensures Linked(events[..n], i) {
      assert Linked(events, i);
    }
  }

  // Two verified chains with the same head are the same, event for event: so any edit, insertion, deletion or
  // reordering that leaves the head in place fails verification.
  lemma {:induction false} HeadDeterminesChain(a: seq<Row>, b: seq<Row>)
    requires Verified(a) && Verified(b) && Head(a) == Head(b)
    ensures a == b
    decreases |a|
  {
    var n, m := |a|, |b|;
    assert Linked(a, n - 1) && Linked(b, m - 1);
    assert a[n - 1] == b[m - 1];
    assert n > 1 ==> Linked(a, n - 2);
    assert m > 1 ==> Linked(b, m - 2);
    if n > 1 {
      Shorter(a, n - 1);
      Shorter(b, m - 1);
      HeadDeterminesChain(a[..n - 1], b[..m - 1]);
      assert a == a[..n - 1] + [a[n - 1]] && b == b[..m - 1] + [b[m - 1]];
    }
  }

  // Among the rows of a verified chain the loss of the newest events is the one change that passes: they verify by
  // themselves if and only if they are the chain up to some event.
  lemma OnlyTruncationPasses(events: seq<Row>, kept: seq<Row>)
    requires Verified(events) && kept != [] && forall x :: x in kept ==> x in events
    ensures Verified(kept) <==> |kept| <= |events| && kept == events[..|kept|]
  {
    if Verified(kept) {
      assert kept[|kept| - 1] in events;
      var k :| 0 <= k < |events| && events[k] == kept[|kept| - 1];
      Shorter(events, k + 1);
      HeadDeterminesChain(kept, events[..k + 1]);
    }
    if |kept| <= |events| {
      Shorter(events, |kept|);
    }
  }

  // The hash has no key: from any entries a chain can be built anew that verifies.
  function Rebuilt(entries: seq<Row>): (r: seq<Row>)
    ensures |r| == |entries|
  {
    if entries == [] then []
    else
      var front, last := Rebuilt(entries[..|entries| - 1]), entries[|entries| - 1];
      front + [Row(last.run, last.sequence, last.event, Head(front), Sha256(last.run, last.sequence, last.event, Head(front)))]
  }

  predicate SameEntries(a: seq<Row>, b: seq<Row>) {
    |a| == |b| && forall i :: 0 <= i < |a| ==> a[i].run == b[i].run && a[i].sequence == b[i].sequence && a[i].event == b[i].event
  }

  lemma {:induction false} RebuiltVerifies(entries: seq<Row>)
    ensures SameEntries(Rebuilt(entries), entries) && (entries != [] ==> Verified(Rebuilt(entries)))
  {
    if entries != [] {
      var n := |entries| - 1;
      RebuiltVerifies(entries[..n]);
      var all := Rebuilt(entries);
      assert all[..n] == Rebuilt(entries[..n]);
      forall i | 0 <= i < |all| ensures Linked(all, i) {
        if i < n {
          assert Linked(all[..n], i);
        }
      }
    }
  }

  // Verification without a known head tells exactly this: the hashes are those of a chain built from these entries.
  lemma {:induction false} VerifiedIsRebuilt(events: seq<Row>)
    ensures Verified(events) <==> events != [] && events == Rebuilt(events)
  {
    RebuiltVerifies(events);
    if Verified(events) {
      var n := |events| - 1;
      assert Linked(events, n);
      if n > 0 {
        Shorter(events, n);
        VerifiedIsRebuilt(events[..n]);
      } else {
        assert events[..0] == [];
      }
      assert events == events[..n] + [events[n]];
    }
  }

  // So any change, to whatever entries, goes unnoticed in a chain built anew: only its head gives it away.
  lemma RewritingPasses(honest: seq<Row>, entries: seq<Row>)
    requires Verified(honest) && entries != [] && !SameEntries(entries, honest)
    ensures Verified(Rebuilt(entries)) && SameEntries(Rebuilt(entries), entries) && Head(Rebuilt(entries)) != Head(honest)
  {
    RebuiltVerifies(entries);
    if Head(Rebuilt(entries)) == Head(honest) {
      HeadDeterminesChain(Rebuilt(entries), honest);
    }
  }

  // ---- The store -------------------------------------------------------------------------------------------------

  // Every run is numbered from one without gaps, and every run with an event verifies.
  ghost predicate Chained(rows: seq<Row>) {
    forall run: RunId :: RunChained(EventsOf(rows, run))
  }

  ghost predicate RunChained(events: seq<Row>) {
    (forall i :: 0 <= i < |events| ==> events[i].sequence == i + 1) && (events != [] ==> Verified(events))
  }

  function NextRow(rows: seq<Row>, run: RunId, event: Event): Row {
    var events := EventsOf(rows, run);
    var sequence := if events == [] then 1 else events[|events| - 1].sequence + 1;
    Row(run, sequence, event, Head(events), Sha256(run, sequence, event, Head(events)))
  }

  // One append extends its own run by one linked event and leaves every other run as it was.
  lemma AppendKeeps(rows: seq<Row>, run: RunId, event: Event)
    requires Chained(rows)
    ensures var row := NextRow(rows, run, event);
            && Chained(rows + [row])
            && row.sequence == |EventsOf(rows, run)| + 1 && row.event == event
            && forall other: RunId :: EventsOf(rows + [row], other) == EventsOf(rows, other) + if other == run then [row] else []
  {
    var row := NextRow(rows, run, event);
    var events := EventsOf(rows, run);
    assert RunChained(events);
    assert (rows + [row])[..|rows|] == rows;
    assert InsertBySequence(events, row) == events + [row];
    forall other: RunId ensures EventsOf(rows + [row], other) == EventsOf(rows, other) + if other == run then [row] else [] {
    }
    LinkedAtEnd(events, row);
    forall other: RunId ensures RunChained(EventsOf(rows + [row], other)) {
      assert RunChained(EventsOf(rows, other));
    }
  }

  lemma LinkedAtEnd(events: seq<Row>, row: Row)
    requires RunChained(events)
    requires row.sequence == |events| + 1 && row.previous == Head(events) && row.hash == HashOf(row)
    ensures RunChained(events + [row])
  {
    var longer := events + [row];
    forall i | 0 <= i < |longer| ensures Linked(longer, i) {
      if i < |events| {
        assert Linked(events, i);
      }
    }
  }

  // The uniqueness constraint never refuses an append.
  lemma ChainedIsUnique(rows: seq<Row>, i: nat, k: nat)
    requires i < k < |rows| && rows[k] == NextRow(rows[..k], rows[k].run, rows[k].event)
    requires Chained(rows[..k])
    ensures rows[i].run == rows[k].run ==> rows[i].sequence != rows[k].sequence && rows[i].hash != rows[k].hash
  {
    if rows[i].run == rows[k].run {
      var events := EventsOf(rows[..k], rows[k].run);
      assert rows[..k][i] in events;
      assert RunChained(events);
      var n :| 0 <= n < |events| && events[n] == rows[i];
      assert Linked(events, n);
    }
  }

  class Store {
    var rows: seq<Row>

    ghost predicate Valid()
      reads this
    {
      Chained(rows) && UniqueNumbers(rows)
    }

    constructor ()
      ensures Valid() && rows == []
    {
      rows := [];
    }

    // _append_unlocked
    method Append(run: RunId, event: Event) returns (row: Row)
      requires Valid()
      modifies this
      ensures Valid() && rows == old(rows) + [row]
      ensures row.run == run && row.event == event && row.sequence == |EventsOf(old(rows), run)| + 1
      ensures forall other: RunId :: EventsOf(rows, other) == EventsOf(old(rows), other) + if other == run then [row] else []
    {
      AppendKeeps(rows, run, event);
      row := NextRow(rows, run, event);
      ghost var was := rows;
      rows := rows + [row];
      forall i | 0 <= i < |was| ensures rows[i].run == row.run ==> rows[i].sequence != row.sequence {
        assert rows[..|was|] == was;
        ChainedIsUnique(rows, i, |was|);
      }
    }

    // verify, over whatever the table holds
    method Verify(run: RunId) returns (ok: bool)
      ensures ok <==> Verified(EventsOf(rows, run))
    {
      var events := EventsOf(rows, run);
      var previous := Genesis;
      for i := 0 to |events|
        invariant previous == Head(events[..i])
        invariant forall k :: 0 <= k < i ==> Linked(events, k)
      {
        if events[i].previous != previous {
          assert !Linked(events, i);
          return false;
        }
        if HashOf(events[i]) != events[i].hash {
          assert !Linked(events, i);
          return false;
        }
        previous := events[i].hash;
      }
      ok := events != [];
    }

    // Any interleaving of appends over many runs.
    method AppendAll(work: seq<(RunId, Event)>)
      requires Valid()
      modifies this
      ensures Valid() && |rows| == |old(rows)| + |work|
      ensures Recorded(old(rows), rows, work)
    {
      NothingRecorded(rows);
      hide Recorded, Chained, UniqueNumbers;
      for i := 0 to |work|
        invariant Valid() && |rows| == |old(rows)| + i
        invariant Recorded(old(rows), rows, work[..i])
      {
        ghost var before := rows;
        var row := Append(work[i].0, work[i].1);
        assert work[..i + 1] == work[..i] + [work[i]];
        RecordedGrows(old(rows), before, rows, work[..i], work[i], row);
      }
      assert work[..|work|] == work;
    }
  }

  function EventBodies(events: seq<Row>): seq<Event> {
    seq(|events|, i requires 0 <= i < |events| => events[i].event)
  }

  // What was appended to one run, in order.
  function WorkOf(work: seq<(RunId, Event)>, run: RunId): seq<Event> {
    if work == [] then []
    else
      var last := work[|work| - 1];
      WorkOf(work[..|work| - 1], run) + if last.0 == run then [last.1] else []
  }

  // Every run holds, after what it held before, what was appended to it and nothing else.
  ghost predicate Recorded(before: seq<Row>, after: seq<Row>, work: seq<(RunId, Event)>) {
    forall run: RunId :: EventBodies(EventsOf(after, run)) == EventBodies(EventsOf(before, run)) + WorkOf(work, run)
  }

  lemma RecordedFor(rows: seq<Row>, work: seq<(RunId, Event)>, run: RunId)
    requires Recorded([], rows, work)
    ensures EventBodies(EventsOf(rows, run)) == WorkOf(work, run)
  {
    assert EventBodies(EventsOf([], run)) == [];
  }

  lemma NothingRecorded(rows: seq<Row>)
    ensures Recorded(rows, rows, [])
  {
  }

  lemma RecordedGrows(start: seq<Row>, before: seq<Row>, after: seq<Row>, work: seq<(RunId, Event)>, next: (RunId, Event), row: Row)
    requires Recorded(start, before, work) && row.event == next.1
    requires forall other: RunId :: EventsOf(after, other) == EventsOf(before, other) + if other == next.0 then [row] else []
    ensures Recorded(start, after, work + [next])
  {
    assert (work + [next])[..|work|] == work;
    forall run: RunId ensures EventBodies(EventsOf(after, run)) == EventBodies(EventsOf(start, run)) + WorkOf(work + [next], run) {
      assert EventBodies(EventsOf(before, run)) == EventBodies(EventsOf(start, run)) + WorkOf(work, run);
      var was, own := EventsOf(before, run), if run == next.0 then [row] else [];
      assert WorkOf(work + [next], run) == WorkOf(work, run) + EventBodies(own);
      assert EventBodies(was + own) == EventBodies(was) + EventBodies(own);
    }
  }

  // A run as appended, then a table someone else may have rewritten: if it verifies with the same head, nothing changed.
  method VerifyAfterTampering(work: seq<(RunId, Event)>, tampered: seq<Row>, run: RunId) returns (ok: bool)
    ensures ok ==> EventBodies(EventsOf(tampered, run)) == WorkOf(work, run)
    ensures EventsOf(tampered, run) == [] ==> !ok
  {
    hide EventBodies, WorkOf, EventsOf, Recorded, UniqueNumbers;
    var store := new Store();
    store.AppendAll(work);
    var head := Head(EventsOf(store.rows, run));
    ghost var honest := EventsOf(store.rows, run);
    assert RunChained(honest);
    RecordedFor(store.rows, work, run);
    store.rows := tampered;
    ok := store.Verify(run);
    ok := ok && Head(EventsOf(tampered, run)) == head;
    if ok {
      KeepsHead(EventsOf(tampered, run), honest);
    }
  }

  lemma KeepsHead(events: seq<Row>, honest: seq<Row>)
    requires Verified(events) && RunChained(honest) && Head(events) == Head(honest)
    ensures events == honest
  {
    assert Linked(events, |events| - 1);
    HeadDeterminesChain(events, honest);
  }
}
