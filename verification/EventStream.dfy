// The retention-limited event log and its resumable readers (corvus/conversations.py, _publish and events).
//
// A publication takes its number before it builds its record, and building the record can fail: the payload check lets
// keys pass that are no strings, the record does not. Such a number never has an event.
module EventStream {
  import opened Common

  type ChatId = nat
  datatype Event = Event(sequence: nat, chat: Option<ChatId>, kind: string)

  // What a reader hands out: a published event, or a marker for the events (after, oldest) lost to retention.
  datatype Item = Published(event: Event) | Gap(after: nat, oldest: nat) {
    // The half-open interval (Lo, Hi] of sequence numbers the item accounts for; Hi is its own sequence number.
    function Lo(): int {
      if Published? then event.sequence - 1 else after
    }

    function Hi(): int {
      if Published? then event.sequence else oldest - 1
    }
  }

  function Max(a: nat, b: nat): nat {
    if a < b then b else a
  }

  predicate Matches(filter: Option<ChatId>, e: Option<Event>) {
    e.Some? && (filter.None? || e.value.chat == filter)
  }

  // The history of every number ever taken, 1, 2, 3, ...: the event, or None where the record could not be built.
  ghost predicate Numbered(history: seq<Option<Event>>) {
    forall i :: 0 <= i < |history| && history[i].Some? ==> history[i].value.sequence == i + 1
  }

  ghost predicate MatchesAt(history: seq<Option<Event>>, filter: Option<ChatId>, s: int) {
    0 < s <= |history| && Matches(filter, history[s - 1])
  }

  // The matching events numbered above lo and up to hi, in order.
  ghost function Matching(history: seq<Option<Event>>, filter: Option<ChatId>, lo: nat, hi: nat): seq<Event>
    requires hi <= |history|
    decreases hi - lo
  {
    if lo >= hi then []
    else (if Matches(filter, history[lo]) then [history[lo].value] else []) + Matching(history, filter, lo + 1, hi)
  }

  // The first matching event is the one at index n; or there is none.
  ghost predicate FirstAt(history: seq<Option<Event>>, filter: Option<ChatId>, lo: nat, hi: nat, n: nat)
    requires hi <= |history|
  {
    if Matching(history, filter, lo, hi) == [] then forall k :: lo <= k < hi ==> !Matches(filter, history[k])
    else
      && lo <= n < hi && Matches(filter, history[n]) && Matching(history, filter, lo, hi)[0] == history[n].value
      && (forall k :: lo <= k < n ==> !Matches(filter, history[k]))
      && Matching(history, filter, lo, hi)[1..] == Matching(history, filter, n + 1, hi)
  }

  lemma {:induction false} FindFirst(history: seq<Option<Event>>, filter: Option<ChatId>, lo: nat, hi: nat) returns (n: nat)
    requires hi <= |history|
    ensures FirstAt(history, filter, lo, hi, n)
    decreases hi - lo
  {
    n := lo;
    if lo < hi && !Matches(filter, history[lo]) {
      assert Matching(history, filter, lo, hi) == Matching(history, filter, lo + 1, hi);
      n := FindFirst(history, filter, lo + 1, hi);
    }
  }

  lemma MatchingHead(history: seq<Option<Event>>, filter: Option<ChatId>, lo: nat, hi: nat)
    requires Numbered(history) && hi <= |history|
    ensures
      var m := Matching(history, filter, lo, hi);
      if m == [] then forall s :: lo < s <= hi ==> !MatchesAt(history, filter, s)
      else
        && lo < m[0].sequence <= hi && history[m[0].sequence - 1] == Some(m[0]) && Matches(filter, Some(m[0]))
        && (forall s :: lo < s < m[0].sequence ==> !MatchesAt(history, filter, s))
        && m[1..] == Matching(history, filter, m[0].sequence, hi)
  {
    var n := FindFirst(history, filter, lo, hi);
    if Matching(history, filter, lo, hi) != [] {
      assert history[n].value.sequence == n + 1;
    }
    hide Numbered, Matching;
  }

  lemma {:induction false} MatchingExtends(history: seq<Option<Event>>, e: Option<Event>, filter: Option<ChatId>, lo: nat, hi: nat)
    requires hi <= |history|
    ensures Matching(history + [e], filter, lo, hi) == Matching(history, filter, lo, hi)
    decreases hi - lo
  {
    if lo < hi {
      MatchingExtends(history, e, filter, lo + 1, hi);
    }
  }

  lemma {:induction false} MatchingSnoc(history: seq<Option<Event>>, filter: Option<ChatId>, lo: nat, hi: nat)
    requires lo <= hi < |history|
    ensures Matching(history, filter, lo, hi + 1)
         == Matching(history, filter, lo, hi) + if Matches(filter, history[hi]) then [history[hi].value] else []
    decreases hi - lo
  {
    if lo < hi {
      MatchingSnoc(history, filter, lo + 1, hi);
      var here := if Matches(filter, history[lo]) then [history[lo].value] else [];
      assert Matching(history, filter, lo, hi + 1) == here + Matching(history, filter, lo + 1, hi + 1);
    } else {
      assert Matching(history, filter, hi + 1, hi + 1) == [];
    }
  }

  // ---- What a reader owes its consumer ---------------------------------------------------------------------------

  ghost predicate Covers(item: Item, s: int) {
    item.Lo() < s <= item.Hi()
  }

  // Between base and cursor the items handed out are disjoint, ascending, true to the history, and leave no matching
  // event unaccounted for.
  ghost predicate Accounts(history: seq<Option<Event>>, filter: Option<ChatId>, base: nat, cursor: nat, items: seq<Item>) {
    && base <= cursor <= |history|
    && (forall i :: 0 <= i < |items| ==> base <= items[i].Lo() < items[i].Hi() <= cursor)
    && (forall i, j :: 0 <= i < j < |items| ==> items[i].Hi() <= items[j].Lo())
    && (forall i :: 0 <= i < |items| && items[i].Published? ==>
          history[items[i].Hi() - 1] == Some(items[i].event) && Matches(filter, Some(items[i].event)))
    && (forall s :: base < s <= cursor && MatchesAt(history, filter, s) ==>
          exists i :: 0 <= i < |items| && Covers(items[i], s))
  }

  ghost predicate ReaderFits(
    history: seq<Option<Event>>, filter: Option<ChatId>, base: nat, cursor: nat, horizon: nat, batch: seq<Event>, items: seq<Item>)
  {
    && Accounts(history, filter, base, cursor, items)
    && cursor <= horizon <= |history|
    && batch == Matching(history, filter, cursor, horizon)
  }

  // Publishing never disturbs a reader.
  lemma PublishKeepsReader(
      history: seq<Option<Event>>, e: Option<Event>, filter: Option<ChatId>, base: nat, cursor: nat, horizon: nat, batch: seq<Event>,
      items: seq<Item>)
    requires ReaderFits(history, filter, base, cursor, horizon, batch, items)
    ensures ReaderFits(history + [e], filter, base, cursor, horizon, batch, items)
  {
    MatchingExtends(history, e, filter, cursor, horizon);
    forall s | base < s <= cursor && MatchesAt(history + [e], filter, s)
      ensures exists i :: 0 <= i < |items| && Covers(items[i], s)
    {
      assert MatchesAt(history, filter, s);
    }
  }

  // Handing out the next item: it starts at or above the cursor and nothing matching lies in between.
  lemma Extend(history: seq<Option<Event>>, filter: Option<ChatId>, base: nat, cursor: nat, items: seq<Item>, item: Item)
    requires Accounts(history, filter, base, cursor, items)
    requires cursor <= item.Lo() < item.Hi() <= |history|
    requires item.Published? ==> history[item.Hi() - 1] == Some(item.event) && Matches(filter, Some(item.event))
    requires forall s :: cursor < s <= item.Lo() ==> !MatchesAt(history, filter, s)
    ensures Accounts(history, filter, base, item.Hi(), items + [item])
  {
    var more := items + [item];
    forall s | base < s <= item.Hi() && MatchesAt(history, filter, s)
      ensures exists i :: 0 <= i < |more| && Covers(more[i], s)
    {
      if s <= cursor {
        var i :| 0 <= i < |items| && Covers(items[i], s);
        assert Covers(more[i], s);
      } else {
        assert Covers(more[|items|], s);
      }
    }
  }

  lemma HandOutFits(
      history: seq<Option<Event>>, filter: Option<ChatId>, base: nat, cursor: nat, horizon: nat, batch: seq<Event>, items: seq<Item>)
    requires Numbered(history) && ReaderFits(history, filter, base, cursor, horizon, batch, items) && batch != []
    ensures cursor < batch[0].sequence
    ensures ReaderFits(history, filter, base, batch[0].sequence, horizon, batch[1..], items + [Published(batch[0])])
  {
    hide Accounts, MatchesAt, Numbered, Matching;
    MatchingHead(history, filter, cursor, horizon);
    Extend(history, filter, base, cursor, items, Published(batch[0]));
  }

  lemma GapFits(history: seq<Option<Event>>, filter: Option<ChatId>, base: nat, cursor: nat, items: seq<Item>, gap: Item)
    requires Accounts(history, filter, base, cursor, items)
    requires gap.Gap? && gap.Lo() == cursor < gap.Hi() <= |history|
    ensures Accounts(history, filter, base, gap.Hi(), items + [gap])
  {
    hide Accounts, MatchesAt;
    Extend(history, filter, base, cursor, items, gap);
  }

  // Moving the cursor over events that do not match costs nothing.
  lemma Advance(history: seq<Option<Event>>, filter: Option<ChatId>, base: nat, cursor: nat, items: seq<Item>, to: nat)
    requires Accounts(history, filter, base, cursor, items) && cursor <= to <= |history|
    requires forall s :: cursor < s <= to ==> !MatchesAt(history, filter, s)
    ensures Accounts(history, filter, base, to, items)
  {
  }

  // A reader that starts within the history owes nothing yet.
  lemma Start(history: seq<Option<Event>>, filter: Option<ChatId>, cursor: nat)
    requires cursor <= |history|
    ensures Accounts(history, filter, cursor, cursor, [])
  {
  }

  // Sequence numbers strictly increase, gap markers included; a matching event the cursor has passed was handed out
  // exactly once and lies in no gap, or lies in exactly one reported gap and was not handed out.
  lemma ExactlyOnce(history: seq<Option<Event>>, filter: Option<ChatId>, base: nat, cursor: nat, items: seq<Item>, s: nat)
    returns (i: nat)
    requires Accounts(history, filter, base, cursor, items)
    requires base < s <= cursor && MatchesAt(history, filter, s)
    ensures i < |items| && Covers(items[i], s) && (items[i].Published? ==> history[s - 1] == Some(items[i].event))
    ensures forall j :: 0 <= j < |items| && j != i ==> !Covers(items[j], s)
    ensures forall j, k :: 0 <= j < k < |items| ==> items[j].Hi() < items[k].Hi()
  {
    i :| 0 <= i < |items| && Covers(items[i], s);
  }

  // The same without the vocabulary of the proof. An item tells of a number if it is the event with that number, or a
  // gap that spans it.
  predicate Tells(item: Item, s: nat) {
    match item
    case Published(e) => e.sequence == s
    case Gap(after, oldest) => after < s < oldest
  }

  // Only events of the reader's chat, or of any chat for a reader of all, as they were published and in order; and each
  // such event of the range is handed out once or lies in one gap.
  ghost predicate Complete(history: seq<Option<Event>>, filter: Option<ChatId>, base: nat, cursor: nat, items: seq<Item>) {
    && base <= cursor <= |history|
    && (forall i :: 0 <= i < |items| && items[i].Published? ==>
          var e := items[i].event;
          base < e.sequence <= cursor && history[e.sequence - 1] == Some(e) && (filter == None || e.chat == filter))
    && (forall i, j :: 0 <= i < j < |items| && items[i].Published? && items[j].Published? ==>
          items[i].event.sequence < items[j].event.sequence)
    && (forall s: nat :: base < s <= cursor && history[s - 1].Some? && (filter == None || history[s - 1].value.chat == filter) ==>
          TellsOnce(items, s))
  }

  ghost predicate TellsOnce(items: seq<Item>, s: nat) {
    exists i :: 0 <= i < |items| && Tells(items[i], s) && forall j :: 0 <= j < |items| && j != i ==> !Tells(items[j], s)
  }

  lemma AccountsComplete(history: seq<Option<Event>>, filter: Option<ChatId>, base: nat, cursor: nat, items: seq<Item>)
    requires Numbered(history) && Accounts(history, filter, base, cursor, items)
    ensures Complete(history, filter, base, cursor, items)
  {
    forall s: nat | base < s <= cursor && history[s - 1].Some? && (filter == None || history[s - 1].value.chat == filter)
      ensures TellsOnce(items, s)
    {
      assert MatchesAt(history, filter, s);
      var i := ExactlyOnce(history, filter, base, cursor, items, s);
      assert Tells(items[i], s);
      forall j | 0 <= j < |items| && j != i ensures !Tells(items[j], s) {
        assert !Covers(items[j], s);
      }
    }
    forall i, j | 0 <= i < j < |items| && items[i].Published? && items[j].Published?
      ensures items[i].event.sequence < items[j].event.sequence
    {
      assert items[i].Hi() <= items[j].Lo();
    }
  }

  // ---- The log ---------------------------------------------------------------------------------------------------

  // The events above the cursor that match, as the batch is built from the retained ones.
  function Filtered(events: seq<Event>, filter: Option<ChatId>, cursor: nat): seq<Event> {
    if events == [] then []
    else (if events[0].sequence > cursor && Matches(filter, Some(events[0])) then [events[0]] else []) + Filtered(events[1..], filter, cursor)
  }

  lemma {:induction false} FilteredIsMatching(history: seq<Option<Event>>, filter: Option<ChatId>, lo: nat, hi: nat, cursor: nat)
    requires Numbered(history) && hi <= |history|
    ensures Filtered(Matching(history, None, lo, hi), filter, cursor) == Matching(history, filter, Max(lo, cursor), hi)
    decreases hi - lo
  {
    if lo < hi {
      FilteredIsMatching(history, filter, lo + 1, hi, cursor);
      var all, rest := Matching(history, None, lo, hi), Matching(history, None, lo + 1, hi);
      if history[lo].Some? {
        assert all[0] == history[lo].value && all[1..] == rest && all[0].sequence == lo + 1;
      } else {
        assert all == rest;
      }
      hide Numbered;
    }
  }

  // Where every number has an event, the events are numbered without a break.
  lemma {:induction false} AllMatching(history: seq<Option<Event>>, lo: nat, hi: nat)
    requires Numbered(history) && lo <= hi <= |history|
    ensures |Matching(history, None, lo, hi)| <= hi - lo
    ensures |Matching(history, None, lo, hi)| == hi - lo <==> forall k :: lo <= k < hi ==> history[k].Some?
    ensures |Matching(history, None, lo, hi)| == hi - lo ==>
              forall i :: 0 <= i < hi - lo ==> Matching(history, None, lo, hi)[i].sequence == lo + 1 + i
    decreases hi - lo
  {
    if lo < hi {
      AllMatching(history, lo + 1, hi);
      var all, rest := Matching(history, None, lo, hi), Matching(history, None, lo + 1, hi);
      if history[lo].Some? {
        assert all == [history[lo].value] + rest;
      } else {
        assert all == rest;
      }
    }
  }

  class EventLog {
    const limit: nat
    var events: seq<Event>
    var sequence: nat
    var closed: bool
    ghost var history: seq<Option<Event>>
    ghost var evicted: nat

    // The deque holds all events after the last one evicted, and evicts only when it is full.
    ghost predicate Valid()
      reads this
    {
      && 0 < limit
      && Numbered(history)
      && sequence == |history|
      && evicted <= sequence
      && events == Matching(history, None, evicted, sequence)
      && |events| <= limit
      && (evicted > 0 ==> |events| == limit && history[evicted - 1].Some?)
    }

    constructor (limit: nat)
      requires 0 < limit
      ensures Valid() && this.limit == limit && history == [] && !closed
    {
      this.limit := limit;
      events, sequence, closed, history, evicted := [], 0, false, [], 0;
    }

    // The number is taken in any case; the event is appended if its record can be built.
    method Publish(chat: Option<ChatId>, kind: string, builds: bool) returns (e: Option<Event>)
      requires Valid()
      modifies this
      ensures Valid() && closed == old(closed)
      ensures e == if builds then Some(Event(old(sequence) + 1, chat, kind)) else None
      ensures history == old(history) + [e]
    {
      hide MatchesAt, Matching;
      sequence := sequence + 1;
      e := if builds then Some(Event(sequence, chat, kind)) else None;
      MatchingExtends(history, e, None, evicted, |history|);
      MatchingSnoc(history + [e], None, evicted, |history|);
      history := history + [e];
      if e.Some? {
        events := events + [e.value];
        if |events| > limit {
          MatchingHead(history, None, evicted, sequence);
          evicted := events[0].sequence;
          events := events[1..];
        }
      }
    }

    method Close()
      requires Valid()
      modifies this
      ensures Valid() && closed && history == old(history) && evicted == old(evicted)
    {
      closed := true;
    }

    lemma Length()
      requires Valid()
      ensures sequence == |history|
    {
    }

    // The first retained number, or the next one to come.
    function Oldest(): nat
      reads this
    {
      if |events| > 0 then events[0].sequence else sequence + 1
    }

    // Between the last event evicted and the oldest one retained there are only numbers without an event.
    lemma OldestMeans()
      requires Valid()
      ensures evicted <= Oldest() - 1 <= sequence && forall k :: evicted <= k < Oldest() - 1 ==> history[k].None?
    {
      MatchingHead(history, None, evicted, sequence);
      if events == [] {
        forall k | evicted <= k < sequence ensures history[k].None? {
          assert !MatchesAt(history, None, k + 1);
        }
      } else {
        forall k | evicted <= k < Oldest() - 1 ensures history[k].None? {
          assert !MatchesAt(history, None, k + 1);
        }
      }
    }

    // The retained events are a contiguous run of numbers ending at the latest exactly as long as every record since
    // the oldest one retained could be built.
    lemma ContiguousExactly()
      requires Valid()
      ensures
        (|events| == sequence - (Oldest() - 1) && forall i :: 0 <= i < |events| ==> events[i].sequence == Oldest() + i) <==>
        forall k :: 0 <= k < |history| && Oldest() - 1 <= k ==> history[k].Some?
    {
      OldestMeans();
      SameFromOldest();
      AllMatching(history, Oldest() - 1, sequence);
    }

    lemma SameFromOldest()
      requires Valid()
      ensures 0 <= Oldest() - 1 <= |history| == sequence && events == Matching(history, None, Oldest() - 1, sequence)
    {
      OldestMeans();
      SkipNone(history, evicted, Oldest() - 1, sequence);
    }

    // A reader that is told of a gap has lost exactly the events evicted, unless the number just before the oldest
    // retained event never had one.
    lemma GapIsEviction()
      requires Valid() && Oldest() > 1
      ensures Oldest() - 1 <= |history|
      ensures Oldest() - 1 == evicted <==> history[Oldest() - 2].Some?
    {
      OldestMeans();
    }

    // The retained matching events above the cursor: every matching event above it, if none was evicted.
    method Select(filter: Option<ChatId>, cursor: nat) returns (batch: seq<Event>)
      requires Valid() && Oldest() <= cursor + 1
      ensures batch == Matching(history, filter, cursor, sequence)
    {
      hide Filtered;
      batch := [];
      assert events[..0] == [];
      FilteredNothing(filter, cursor);
      for i := 0 to |events|
        invariant batch == Filtered(events[..i], filter, cursor)
      {
        assert events[..i + 1] == events[..i] + [events[i]];
        FilteredSnoc(events[..i], events[i], filter, cursor);
        if events[i].sequence > cursor && (filter.None? || events[i].chat == filter) {
          batch := batch + [events[i]];
        }
      }
      assert events[..|events|] == events;
      AllFiltered(filter, cursor);
    }

    lemma AllFiltered(filter: Option<ChatId>, cursor: nat)
      requires Valid() && Oldest() <= cursor + 1
      ensures Filtered(events, filter, cursor) == Matching(history, filter, cursor, sequence)
    {
      OldestMeans();
      FilteredIsMatching(history, filter, evicted, sequence, cursor);
    }
  }

  lemma FilteredNothing(filter: Option<ChatId>, cursor: nat)
    ensures Filtered([], filter, cursor) == []
  {
  }

  lemma {:induction false} FilteredSnoc(events: seq<Event>, e: Event, filter: Option<ChatId>, cursor: nat)
    ensures Filtered(events + [e], filter, cursor)
         == Filtered(events, filter, cursor) + if e.sequence > cursor && Matches(filter, Some(e)) then [e] else []
  {
    if events != [] {
      FilteredSnoc(events[1..], e, filter, cursor);
      assert (events + [e])[1..] == events[1..] + [e];
    }
  }

  lemma {:induction false} SkipNone(history: seq<Option<Event>>, lo: nat, mid: nat, hi: nat)
    requires lo <= mid <= hi <= |history| && forall k :: lo <= k < mid ==> history[k].None?
    ensures Matching(history, None, lo, hi) == Matching(history, None, mid, hi)
    decreases mid - lo
  {
    if lo < mid {
      SkipNone(history, lo + 1, mid, hi);
    }
  }

  // ---- A reader --------------------------------------------------------------------------------------------------

  class Reader {
    const log: EventLog
    const filter: Option<ChatId>
    var cursor: nat
    var batch: seq<Event>
    var gapOnly: bool
    var finished: bool

    // Where the reader's account starts, how far its batch looks, and everything it has handed out.
    ghost var base: nat
    ghost var horizon: nat
    ghost var items: seq<Item>

    // Not yet run: the starting cursor may even lie in the future.
    ghost predicate Fresh()
      reads this
    {
      items == [] && batch == [] && base == cursor && !gapOnly
    }

    ghost predicate Valid()
      reads this, log
    {
      && log.Valid() && (Fresh() || ReaderFits(log.history, filter, base, cursor, horizon, batch, items))
      && (gapOnly ==> items != [] && items[|items| - 1].Gap?)
    }

    // A negative after_sequence means the beginning.
    constructor (log: EventLog, filter: Option<ChatId>, after: int)
      requires log.Valid()
      ensures Valid() && Fresh() && !finished && this.log == log && this.filter == filter
      ensures cursor == if after < 0 then 0 else after
    {
      this.log, this.filter := log, filter;
      cursor := if after < 0 then 0 else after;
      base := if after < 0 then 0 else after;
      batch, gapOnly, finished, horizon, items := [], false, false, 0, [];
    }

    // What the consumer is to see next, if anything: the rest of the batch, a gap marker as soon as retention has
    // overtaken the cursor, or else the first matching event above it.
    ghost function Due(): Option<Item>
      reads this, log
      requires log.Valid()
    {
      if batch != [] then Some(Published(batch[0]))
      else if cursor < log.Oldest() - 1 then Some(Gap(cursor, log.Oldest()))
      else
        var rest := Matching(log.history, filter, cursor, log.sequence);
        if rest != [] then Some(Published(rest[0])) else None
    }

    // Runs the generator from one suspension to the next: it hands out an item, waits for a publication, or ends.
    method Resume() returns (item: Option<Item>)
      requires Valid()
      modifies this
      ensures Valid()
      ensures items == if item.Some? then old(items) + [item.value] else old(items)
      ensures base == if old(!finished && cursor > log.sequence) && !finished then log.sequence else old(base)
      ensures item == if old(finished) || (old(batch == [] && gapOnly) && log.closed) then None else old(Due())
      ensures item.None? && !finished ==> cursor == log.sequence && batch == [] && !gapOnly
      ensures item.Some? && item.value.Gap? ==>
                && batch == Matching(log.history, filter, log.Oldest() - 1, log.sequence)
                && (gapOnly <==> batch == []) && cursor == log.Oldest() - 1
      ensures finished <==> old(finished) || (item.None? && log.closed)
      ensures finished ==> cursor == old(cursor) && batch == old(batch)
    {
      item := None;
      if finished {
      } else if batch != [] {
        item := HandOut();
      } else if gapOnly && log.closed {
        finished := true;
      } else {
        item := Scan();
      }
    }

    // The next event of the batch.
    method HandOut() returns (item: Option<Item>)
      requires Valid() && batch != [] && !finished
      modifies this
      ensures Valid() && item.Some? && items == old(items) + [item.value]
      ensures base == old(base) && !finished && item == old(Due())
    {
      hide Accounts, MatchesAt, Numbered, Matching, Matches, ReaderFits;
      HandOutFits(log.history, filter, base, cursor, horizon, batch, items);
      var e := batch[0];
      batch := batch[1..];
      cursor := Max(cursor, e.sequence);
      gapOnly := false;
      items := items + [Published(e)];
      item := Some(Published(e));
    }

    // One turn of the loop under the condition lock.
    method Scan() returns (item: Option<Item>)
      requires Valid() && batch == [] && !finished
      modifies this
      ensures Valid()
      ensures items == if item.Some? then old(items) + [item.value] else old(items)
      ensures base == if old(cursor) > log.sequence && !finished then log.sequence else old(base)
      ensures item == old(Due())
      ensures item.None? && !finished ==> cursor == log.sequence && batch == [] && !gapOnly
      ensures item.Some? && item.value.Gap? ==>
                && batch == Matching(log.history, filter, log.Oldest() - 1, log.sequence)
                && (gapOnly <==> batch == []) && cursor == log.Oldest() - 1
      ensures finished <==> item.None? && log.closed
      ensures finished ==> cursor == old(cursor) && batch == old(batch)
    {
      hide Accounts, MatchesAt, Numbered;
      log.OldestMeans();
      if cursor < log.Oldest() - 1 {
        item := ReportGap();
      } else {
        item := Poll();
      }
    }

    // Retention has overtaken the cursor: a marker first, then whatever is left.
    method ReportGap() returns (item: Option<Item>)
      requires Valid() && batch == [] && !finished && cursor < log.Oldest() - 1 <= log.sequence
      modifies this
      ensures Valid() && item.Some? && item == old(Due()) && items == old(items) + [item.value]
      ensures base == old(base) && !finished
      ensures batch == Matching(log.history, filter, log.Oldest() - 1, log.sequence)
      ensures (gapOnly <==> batch == []) && cursor == log.Oldest() - 1
    {
      hide Accounts, MatchesAt, Numbered, Matching, Matches, EventLog.Valid, EventLog.Oldest;
      log.Length();
      Start(log.history, filter, cursor);
      var gap := Gap(cursor, log.Oldest());
      GapFits(log.history, filter, base, cursor, items, gap);
      cursor := log.Oldest() - 1;
      batch := log.Select(filter, cursor);
      horizon := log.sequence;
      gapOnly := batch == [];
      items := items + [gap];
      item := Some(gap);
    }

    // Nothing was lost: the next matching event, or a wait with the cursor moved past the irrelevant ones.
    method Poll() returns (item: Option<Item>)
      requires Valid() && batch == [] && !finished && log.Oldest() <= cursor + 1
      modifies this
      ensures Valid()
      ensures items == if item.Some? then old(items) + [item.value] else old(items)
      ensures base == if old(cursor) > log.sequence && !finished then log.sequence else old(base)
      ensures item == old(Due()) && !(item.Some? && item.value.Gap?)
      ensures item.None? && !finished ==> cursor == log.sequence && batch == [] && !gapOnly
      ensures finished <==> item.None? && log.closed
      ensures finished ==> cursor == old(cursor) && batch == old(batch)
    {
      hide Accounts, MatchesAt, Numbered, Matching, Matches, EventLog.Oldest;
      var found := log.Select(filter, cursor);
      MatchingHead(log.history, filter, cursor, log.sequence);
      if found != [] {
        item := TakeUp(found);
      } else {
        item := None;
        if log.closed {
          finished := true;
        } else {
          Sleep();
        }
      }
    }

    method TakeUp(found: seq<Event>) returns (item: Option<Item>)
      requires Valid() && batch == [] && !finished && cursor <= log.sequence
      requires found != [] && found == Matching(log.history, filter, cursor, log.sequence)
      modifies this
      ensures Valid() && item.Some? && items == old(items) + [item.value]
      ensures base == old(base) && !finished && item == Some(Published(found[0]))
    {
      hide Accounts, MatchesAt, Numbered;
      Start(log.history, filter, cursor);
      batch, horizon := found, log.sequence;
      item := HandOut();
    }

    // Before waiting the cursor skips to the latest number, even when that means going back.
    method Sleep()
      requires Valid() && batch == [] && !finished && (cursor <= log.sequence || Fresh())
      requires forall s :: cursor < s <= log.sequence ==> !MatchesAt(log.history, filter, s)
      modifies this
      ensures Valid() && cursor == log.sequence && items == old(items) && !finished && batch == [] && !gapOnly
      ensures base == if old(cursor) > log.sequence then log.sequence else old(base)
    {
      hide Accounts, MatchesAt, Numbered;
      if log.sequence < cursor {
        base := log.sequence;
        Start(log.history, filter, log.sequence);
      } else {
        Start(log.history, filter, cursor);
        Advance(log.history, filter, base, cursor, items, log.sequence);
      }
      cursor, horizon, gapOnly := log.sequence, log.sequence, false;
    }
  }

  // ---- Whole runs ------------------------------------------------------------------------------------------------

  datatype Move = DoPublish(chat: Option<ChatId>, kind: string, builds: bool) | DoResume | DoClose

  // Any interleaving of publications, failed ones included, evictions and a filtered reader that subscribed at or before
  // the current number: what it handed out accounts for everything from its subscription to its cursor. (Readers do not
  // affect the log, so other readers add nothing to the interleavings.)
  method Run(r: Reader, script: seq<Move>)
    requires r.Valid() && r.Fresh() && r.cursor <= r.log.sequence
    modifies r, r.log
    ensures r.Valid() && Accounts(r.log.history, r.filter, old(r.cursor), r.cursor, r.items)
    ensures Complete(r.log.history, r.filter, old(r.cursor), r.cursor, r.items)
    ensures old(r.log.history) <= r.log.history
  {
    hide Accounts, Numbered, MatchesAt, Complete;
    for i := 0 to |script|
      invariant r.Valid() && r.cursor <= r.log.sequence && r.base == old(r.cursor)
      invariant old(r.log.history) <= r.log.history
    {
      match script[i]
      case DoPublish(chat, kind, builds) =>
        PublishBeside(r, chat, kind, builds);
      case DoResume =>
        Step(r);
      case DoClose =>
        r.log.Close();
    }
    Start(r.log.history, r.filter, r.cursor);
    Settled(r);
  }

  lemma Settled(r: Reader)
    requires r.Valid() && Accounts(r.log.history, r.filter, r.base, r.cursor, r.items)
    ensures Complete(r.log.history, r.filter, r.base, r.cursor, r.items)
  {
    AccountsComplete(r.log.history, r.filter, r.base, r.cursor, r.items);
  }

  // A publication while the reader is suspended.
  method PublishBeside(r: Reader, chat: Option<ChatId>, kind: string, builds: bool)
    requires r.Valid()
    modifies r.log
    ensures r.Valid() && r.log.closed == old(r.log.closed)
    ensures r.log.history == old(r.log.history) + [if builds then Some(Event(old(r.log.sequence) + 1, chat, kind)) else None]
  {
    hide Accounts;
    ghost var history := r.log.history;
    var e := r.log.Publish(chat, kind, builds);
    if !r.Fresh() {
      PublishKeepsReader(history, e, r.filter, r.base, r.cursor, r.horizon, r.batch, r.items);
    }
  }

  method Step(r: Reader)
    requires r.Valid() && r.cursor <= r.log.sequence
    modifies r
    ensures r.Valid() && r.cursor <= r.log.sequence && r.base == old(r.base)
  {
    var _ := r.Resume();
    if r.Fresh() {
      assert r.cursor == r.base;
    }
  }

  // The condition is exact. A reader that asks for events after a number not reached yet is, once it has waited,
  // handed the very next event although its number does not exceed the one it asked for.
  method FutureSubscription(log: EventLog, after: nat) returns (item: Option<Item>)
    requires log.Valid() && !log.closed && log.sequence < after
    modifies log
    ensures item.Some? && item.value.Published? && item.value.Hi() <= after
  {
    hide Accounts, Numbered, MatchesAt;
    log.OldestMeans();
    var r := new Reader(log, None, after);
    var _ := r.Resume();
    PublishBeside(r, None, "run.started", true);
    log.OldestMeans();
    OneMatching(log.history, r.cursor);
    item := r.Resume();
  }

  lemma OneMatching(history: seq<Option<Event>>, n: nat)
    requires n + 1 == |history| && history[n].Some?
    ensures Matching(history, None, n, n + 1) == [history[n].value]
  {
    assert Matching(history, None, n + 1, n + 1) == [];
  }

  // A number without an event in front of the oldest retained one looks like a loss: the first publication fails, the
  // second does not, and a reader from the beginning is told of a gap although nothing was ever evicted.
  method PhantomGap(limit: nat, chat: Option<ChatId>) returns (item: Option<Item>, log: EventLog)
    requires 0 < limit
    ensures item == Some(Gap(0, 2)) && log.Valid() && log.evicted == 0 && |log.history| == 2 && log.history[0].None?
  {
    log := new EventLog(limit);
    var _ := log.Publish(chat, "agent.note", false);
    var e := log.Publish(chat, "run.started", true);
    log.OldestMeans();
    log.SameFromOldest();
    var r := new Reader(log, None, 0);
    item := r.Resume();
  }

  // One more event of somebody else's chat than the log retains.
  method Overflow(limit: nat, other: ChatId) returns (log: EventLog)
    requires 0 < limit
    ensures fresh(log) && log.Valid() && !log.closed && log.sequence == limit + 1 && log.Oldest() == 2
    ensures forall k :: 0 <= k < |log.history| ==> log.history[k].Some? && log.history[k].value.chat == Some(other)
  {
    log := new EventLog(limit);
    for i := 0 to limit + 1
      invariant log.Valid() && !log.closed && log.sequence == i && fresh(log) && log.limit == limit
      invariant forall k :: 0 <= k < i ==> log.history[k].Some? && log.history[k].value.chat == Some(other)
    {
      var _ := log.Publish(Some(other), "run.started", true);
    }
    AllMatching(log.history, log.evicted, log.sequence);
    log.OldestMeans();
  }

  // A resumption that ends the reader leaves something due exactly when the reader was suspended right after a gap
  // marker with nothing behind it and the runtime closed: it checks for the closed runtime before it looks at the log.
  method EndMisses(r: Reader)
    requires r.Valid() && !r.finished
    modifies r
    ensures r.Valid() && (r.finished ==> r.items == old(r.items))
    ensures r.finished && r.Due().Some? <==> old(r.batch == [] && r.gapOnly && r.log.closed && r.Due().Some?)
    ensures old(r.gapOnly) ==> old(r.items) != [] && old(r.items[|r.items| - 1].Gap?)
  {
    var item := r.Resume();
  }

  // Such a reader ends without an event published meanwhile.
  method MissTail(r: Reader)
    requires r.Valid() && !r.finished && r.gapOnly && r.batch == [] && r.cursor <= r.log.sequence && r.filter.Some?
    modifies r, r.log
    ensures r.Valid() && r.finished && r.items == old(r.items)
    ensures r.cursor < r.log.sequence && MatchesAt(r.log.history, r.filter, r.log.sequence)
  {
    PublishBeside(r, r.filter, "run.completed", true);
    r.log.Close();
    var _ := r.Resume();
  }

  // A reader from the beginning of a log that no longer holds the first event gets a gap marker.
  method SubscribeBehind(log: EventLog, filter: Option<ChatId>) returns (r: Reader)
    requires log.Valid() && log.Oldest() == 2 && log.sequence > 0
    ensures fresh(r) && r.Valid() && r.log == log && r.filter == filter && !r.finished
    ensures r.cursor == 1 && r.batch == Matching(log.history, filter, 1, log.sequence) && (r.gapOnly <==> r.batch == [])
  {
    hide Accounts, Numbered, Matching, MatchesAt;
    r := new Reader(log, filter, 0);
    var _ := r.Resume();
  }

  lemma NothingMine(history: seq<Option<Event>>, mine: ChatId, other: ChatId, lo: nat)
    requires Numbered(history) && mine != other
    requires forall k :: 0 <= k < |history| ==> history[k].Some? && history[k].value.chat == Some(other)
    ensures Matching(history, Some(mine), lo, |history|) == []
  {
    MatchingHead(history, Some(mine), lo, |history|);
  }

  // And such a suspension is reached.
  method EndAfterGap(limit: nat, mine: ChatId, other: ChatId) returns (r: Reader)
    requires 0 < limit && mine != other
    ensures r.Valid() && r.finished
    ensures r.cursor < r.log.sequence && MatchesAt(r.log.history, r.filter, r.log.sequence)
  {
    hide Accounts, Numbered, Reader.Due, MatchesAt, Matching;
    var log := Overflow(limit, other);
    NothingMine(log.history, mine, other, 1);
    r := SubscribeBehind(log, Some(mine));
    MissTail(r);
  }
}
