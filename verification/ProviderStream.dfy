// Collecting a provider's stream with delayed redaction and aggregate limits (corvus/providers.py, and the streaming
// part of the redactor in corvus/security.py). What is redacted, and what the token patterns match, is left abstract.
module ProviderStream {
  import opened Common

  // ---- Text ------------------------------------------------------------------------------------------------------

  type CodePoint = c: int | 0 <= c < 0x110000
  type Text = seq<CodePoint>

  // A lone surrogate has no UTF-8 form: encoding it raises.
  predicate Encodable(t: Text) {
    forall i :: 0 <= i < |t| ==> !(0xD800 <= t[i] < 0xE000)
  }

  function Utf8Length(t: Text): (n: nat)
    ensures |t| <= n <= 4 * |t|
  {
    if t == [] then 0
    else
      var c := t[|t| - 1];
      Utf8Length(t[..|t| - 1]) + if c < 0x80 then 1 else if c < 0x800 then 2 else if c < 0x10000 then 3 else 4
  }

  lemma {:induction false} Utf8LengthAdds(a: Text, b: Text)
    ensures Utf8Length(a + b) == Utf8Length(a) + Utf8Length(b)
    decreases |b|
  {
    if b == [] {
      assert a + b == a;
    } else {
      Utf8LengthAdds(a, b[..|b| - 1]);
      assert (a + b)[..|a + b| - 1] == a + b[..|b| - 1];
    }
  }

  // How many of these code points are at least so large.
  function AtLeast(t: Text, bound: int): nat {
    if t == [] then 0 else AtLeast(t[..|t| - 1], bound) + if t[|t| - 1] >= bound then 1 else 0
  }

  // A second byte from 0x80 on, a third from 0x800 on, a fourth from 0x10000 on.
  lemma {:induction false} Utf8LengthMeans(t: Text)
    ensures Utf8Length(t) == |t| + AtLeast(t, 0x80) + AtLeast(t, 0x800) + AtLeast(t, 0x10000)
  {
    if t != [] {
      Utf8LengthMeans(t[..|t| - 1]);
    }
  }

  // ---- The redactor ----------------------------------------------------------------------------------------------

  datatype Span = Span(start: nat, end: nat)
  datatype Redactor = Redactor(redact: Text -> Text, patterns: seq<Text -> seq<Span>>, longestSecret: nat)

  // streaming_buffer_characters
  function BufferCharacters(r: Redactor, maximum: nat): (n: nat)
    requires maximum > 0
    ensures 0 < n <= maximum
    ensures n == maximum || (n >= 512 && n >= r.longestSecret + 64)
    ensures n <= 512 || n <= r.longestSecret + 64
  {
    var required := if 512 < r.longestSecret + 64 then r.longestSecret + 64 else 512;
    if required < maximum then required else maximum
  }

  // A cut that keeps the buffer and does not split a match that reaches the end of the text.
  ghost predicate SafeCut(r: Redactor, text: Text, maximum: nat, cut: nat)
    requires maximum > 0
  {
    && (cut == 0 || cut + BufferCharacters(r, maximum) <= |text|)
    && (forall p, m :: 0 <= p < |r.patterns| && 0 <= m < |r.patterns[p](text)| && r.patterns[p](text)[m].end == |text| ==>
          cut <= r.patterns[p](text)[m].start)
  }

  // streaming_safe_prefix_length: the longest safe cut.
  method SafePrefixLength(r: Redactor, text: Text, maximum: nat) returns (cut: nat)
    requires maximum > 0
    ensures SafeCut(r, text, maximum, cut) && cut <= |text|
    ensures forall c: nat :: SafeCut(r, text, maximum, c) ==> c <= cut
  {
    if |text| <= BufferCharacters(r, maximum) {
      return 0;
    }
    cut := |text| - BufferCharacters(r, maximum);
    for p := 0 to |r.patterns|
      invariant cut + BufferCharacters(r, maximum) <= |text|
      invariant forall q, m :: 0 <= q < p && 0 <= m < |r.patterns[q](text)| && r.patterns[q](text)[m].end == |text| ==>
                  cut <= r.patterns[q](text)[m].start
      invariant forall c: nat :: SafeCut(r, text, maximum, c) ==> c <= cut
    {
      var matches := r.patterns[p](text);
      for m := 0 to |matches|
        invariant cut + BufferCharacters(r, maximum) <= |text|
        invariant forall q, n :: 0 <= q < p && 0 <= n < |r.patterns[q](text)| && r.patterns[q](text)[n].end == |text| ==>
                    cut <= r.patterns[q](text)[n].start
        invariant forall n :: 0 <= n < m && matches[n].end == |text| ==> cut <= matches[n].start
        invariant forall c: nat :: SafeCut(r, text, maximum, c) ==> c <= cut
      {
        if matches[m].end == |text| && matches[m].start < cut {
          cut := matches[m].start;
        }
      }
    }
  }

  class IncrementalRedactor {
    const redactor: Redactor
    const maximum: nat
    var pending: Text

    constructor (redactor: Redactor, maximum: nat)
      requires maximum > 0
      ensures this.redactor == redactor && this.maximum == maximum && pending == []
    {
      this.redactor, this.maximum, pending := redactor, maximum, [];
    }

    // The slice taken from the front goes through redaction; the rest stays pending, and so do matches at its end.
    method Push(text: Text) returns (shown: Text, ghost raw: Text)
      requires maximum > 0
      modifies this
      ensures raw + pending == old(pending) + text
      ensures SliceFits(redactor, raw, shown)
      ensures SafeCut(redactor, old(pending) + text, maximum, |raw|)
      ensures forall c: nat :: SafeCut(redactor, old(pending) + text, maximum, c) ==> c <= |raw|
      ensures raw != [] ==> shown == redactor.redact(raw)
    {
      pending := pending + text;
      var cut := SafePrefixLength(redactor, pending, maximum);
      if cut == 0 {
        return [], [];
      }
      var safe := pending[..cut];
      pending := pending[cut..];
      shown, raw := redactor.redact(safe), safe;
    }

    method Finish() returns (shown: Text, ghost raw: Text)
      modifies this
      ensures raw == old(pending) && pending == [] && shown == redactor.redact(raw)
    {
      shown, raw := redactor.redact(pending), pending;
      pending := [];
    }
  }

  predicate SliceFits(r: Redactor, raw: Text, shown: Text) {
    shown == r.redact(raw) || (raw == [] && shown == [])
  }

  // ---- Bounded text ----------------------------------------------------------------------------------------------

  datatype Bounded = Bounded(text: Text, truncated: bool)

  const FullMarker: Text := [0x5B, 0x54, 0x52, 0x55, 0x4E, 0x43, 0x41, 0x54, 0x45, 0x44, 0x5D]  // [TRUNCATED]
  const ShortMarker: Text := [0x2026]

  // bound_text: never longer than allowed; cut short exactly when it must be, and then marked at its end.
  function BoundText(r: Redactor, text: Text, maximum: nat): (b: Bounded)
    requires maximum > 0
    ensures |b.text| <= maximum
    ensures b.truncated <==> |r.redact(text)| > maximum
    ensures !b.truncated ==> b.text == r.redact(text)
    ensures b.truncated ==>
              var kept := maximum - if maximum < 11 then 1 else 11;
              && |b.text| == maximum && b.text[kept..] == (if maximum < 11 then ShortMarker else FullMarker)
              && b.text[..kept] <= r.redact(text)
  {
    var redacted := r.redact(text);
    if |redacted| > maximum then
      var marker := if maximum >= |FullMarker| then FullMarker else ShortMarker;
      Bounded(redacted[..maximum - |marker|] + marker, true)
    else
      Bounded(redacted, false)
  }

  // ---- The stream and what becomes of it -------------------------------------------------------------------------

  // The redacted JSON form of an event's data, unless redacting it raises.
  datatype Event = Event(kind: string, safe: Option<Text>)
  datatype Item = TextChunk(text: Text) | EventChunk(event: Event)

  datatype Token = Character(c: CodePoint) | Boundary(event: Event)

  function Characters(t: Text): seq<Token> {
    seq(|t|, i requires 0 <= i < |t| => Character(t[i]))
  }

  // A stream as one sequence of characters and events, whatever the chunks.
  function TokensOf(items: seq<Item>): seq<Token> {
    if items == [] then []
    else
      var last := items[|items| - 1];
      TokensOf(items[..|items| - 1]) + if last.TextChunk? then Characters(last.text) else [Boundary(last.event)]
  }

  // What the collector did: a slice of raw text shown in redacted form, or an event exposed.
  datatype Action = Slice(raw: Text, shown: Text) | Exposed(event: Event)

  function RawTokens(log: seq<Action>): seq<Token> {
    if log == [] then []
    else
      var last := log[|log| - 1];
      RawTokens(log[..|log| - 1]) + if last.Slice? then Characters(last.raw) else [Boundary(last.event)]
  }

  function ShownText(log: seq<Action>): Text {
    if log == [] then []
    else
      var last := log[|log| - 1];
      ShownText(log[..|log| - 1]) + if last.Slice? then last.shown else []
  }

  function Join(parts: seq<Text>): Text {
    if parts == [] then [] else Join(parts[..|parts| - 1]) + parts[|parts| - 1]
  }

  function CountedText(item: Item): Text {
    match item
    case TextChunk(t) => t
    case EventChunk(e) => if e.safe.Some? then e.safe.value else []
  }

  // Everything counted against the limits on what is received.
  function Counted(items: seq<Item>): Text {
    if items == [] then [] else Counted(items[..|items| - 1]) + CountedText(items[|items| - 1])
  }

  predicate Slices(r: Redactor, log: seq<Action>) {
    forall i :: 0 <= i < |log| && log[i].Slice? ==> SliceFits(r, log[i].raw, log[i].shown)
  }

  datatype Limits = Limits(
    chunks: nat, characters: nat, bytes: nat, emittedCharacters: nat, emittedBytes: nat, persistedCharacters: nat, persistedBytes: nat)
  {
    // __post_init__
    predicate Positive() {
      && chunks > 0 && characters > 0 && bytes > 0 && emittedCharacters > 0 && emittedBytes > 0
      && persistedCharacters > 0 && persistedBytes > 0
    }

    predicate Receives(count: nat, t: Text) {
      count <= chunks && |t| <= characters && Utf8Length(t) <= bytes
    }

    predicate Emits(t: Text) {
      && |t| <= emittedCharacters && Utf8Length(t) <= emittedBytes
      && |t| <= persistedCharacters && Utf8Length(t) <= persistedBytes
    }
  }

  datatype Ending = Proceed | LimitExceeded | Raised
  datatype Result = Collected(text: Text) | Failed(why: Ending)

  // More was received than allowed, at some point of the stream.
  ghost predicate TooMuch(limits: Limits, items: seq<Item>) {
    exists n :: 0 <= n <= |items| && !limits.Receives(n, Counted(items[..n]))
  }

  // A chunk that can be counted: its text, or the redacted form of its data, has an encoding.
  predicate Palatable(item: Item) {
    match item
    case TextChunk(t) => forall i :: 0 <= i < |t| ==> !(0xD800 <= t[i] <= 0xDFFF)
    case EventChunk(e) => e.safe.Some? && forall i :: 0 <= i < |e.safe.value| ==> !(0xD800 <= e.safe.value[i] <= 0xDFFF)
  }

  ghost predicate AllPalatable(items: seq<Item>) {
    forall n :: 0 <= n < |items| ==> Palatable(items[n])
  }

  // on_text and on_chunk, where given, may raise at any call, the limit error included.
  datatype Callbacks = Callbacks(onText: bool, onChunk: bool, ends: nat -> Ending)

  class Collector {
    const redactor: Redactor
    const limits: Limits
    const callbacks: Callbacks
    const incremental: IncrementalRedactor
    var calls: nat
    var parts: seq<Text>
    var emittedCharacters: nat
    var emittedBytes: nat
    var persistedCharacters: nat
    var persistedBytes: nat
    var receivedCharacters: nat
    var receivedBytes: nat
    var receivedChunks: nat
    var closed: bool
    ghost var log: seq<Action>

    constructor (redactor: Redactor, limits: Limits, callbacks: Callbacks)
      requires limits.Positive()
      ensures this.redactor == redactor && this.limits == limits && this.callbacks == callbacks
      ensures fresh(incremental) && Shows() && Receives([]) && Follows([]) && !closed && log == []
    {
      this.redactor, this.limits, this.callbacks := redactor, limits, callbacks;
      incremental := new IncrementalRedactor(redactor, limits.characters);
      calls, parts, closed, log := 0, [], false, [];
      emittedCharacters, emittedBytes, persistedCharacters, persistedBytes := 0, 0, 0, 0;
      receivedCharacters, receivedBytes, receivedChunks := 0, 0, 0;
    }

    // What has been shown is what the counters and the parts say, and within the limits.
    ghost predicate Shows()
      reads this
    {
      && limits.Positive() && incremental.redactor == redactor && incremental.maximum == limits.characters
      && Slices(redactor, log) && Join(parts) == ShownText(log) && Charged(ShownText(log))
    }

    // The counters count this text, and it is within the limits.
    ghost predicate Charged(t: Text)
      reads this`emittedCharacters, this`emittedBytes, this`persistedCharacters, this`persistedBytes
    {
      && emittedCharacters == persistedCharacters == |t| && emittedBytes == persistedBytes == Utf8Length(t)
      && limits.Emits(t)
    }

    lemma ChargedEmits(t: Text)
      requires Charged(t)
      ensures limits.Emits(t)
    {
    }

    ghost predicate Receives(items: seq<Item>)
      reads this
    {
      && receivedChunks == |items| && receivedCharacters == |Counted(items)| && receivedBytes == Utf8Length(Counted(items))
      && limits.Receives(|items|, Counted(items))
    }

    // Everything received was passed on, in order, except the pending text.
    ghost predicate Follows(items: seq<Item>)
      reads this, incremental
    {
      TokensOf(items) == RawTokens(log) + Characters(incremental.pending)
    }

    // On a failure: within the limits all the same, and true to the stream as far as it went.
    ghost predicate Discreet(items: seq<Item>)
      reads this
    {
      Slices(redactor, log) && limits.Emits(ShownText(log)) && RawTokens(log) <= TokensOf(items)
    }

    // A callback raised this error.
    ghost predicate Foreign(why: Ending)
      reads this
    {
      exists i: nat :: i < calls && callbacks.ends(i) == why
    }

    // The next slice, however it is cut, would show too much.
    ghost predicate Overflows(items: seq<Item>)
      reads this
    {
      exists raw ::
        && RawTokens(log) + Characters(raw) <= TokensOf(items)
        && !limits.Emits(ShownText(log) + redactor.redact(raw))
    }

    // A slice of the stream whose redacted form has no encoding.
    ghost predicate Garbles(items: seq<Item>)
      reads this
    {
      exists raw :: RawTokens(log) + Characters(raw) <= TokensOf(items) && !Encodable(redactor.redact(raw))
    }

    // What a failure on these items is due to.
    ghost predicate Blame(items: seq<Item>, why: Ending)
      reads this
    {
      match why
      case Proceed => false
      case LimitExceeded => Foreign(LimitExceeded) || TooMuch(limits, items) || Overflows(items)
      case Raised => Foreign(Raised) || !AllPalatable(items) || Garbles(items)
    }

    lemma BlameLater(items: seq<Item>, n: nat, why: Ending)
      requires n <= |items| && Blame(items[..n], why)
      ensures Blame(items, why)
    {
      hide RawTokens, ShownText, Counted, Characters, TokensOf, Limits.Emits, Limits.Receives, Encodable, Palatable;
      DiscreetEarlier(items, n);
      assert forall m :: 0 <= m <= n ==> items[..n][..m] == items[..m];
    }

    method CallBack(wanted: bool) returns (ending: Ending)
      modifies this`calls
      ensures ending != Proceed ==> Foreign(ending)
    {
      ending := Proceed;
      if wanted {
        ending := callbacks.ends(calls);
        calls := calls + 1;
      }
    }

    // What holds while things go well also holds of a failure at the next chunk.
    lemma StaysDiscreet(items: seq<Item>)
      requires Shows() && Follows(items)
      ensures Discreet(items) && forall item :: Discreet(items + [item])
    {
      forall item ensures TokensOf(items) <= TokensOf(items + [item]) {
        TokensGrow(items, item);
      }
    }

    method Tell() returns (ending: Ending)
      modifies this`calls
      ensures ending != Proceed ==> Foreign(ending)
    {
      ending := CallBack(callbacks.onChunk);
      if ending == Proceed {
        ending := CallBack(callbacks.onText);
      }
    }

    // emit_text: the limits are checked before anything is shown.
    method Emit(text: Text, ghost raw: Text, ghost items: seq<Item>) returns (ending: Ending)
      requires Shows() && SliceFits(redactor, raw, text) && RawTokens(log) + Characters(raw) <= TokensOf(items)
      modifies this`calls, this`parts, this`log, this`emittedCharacters, this`emittedBytes, this`persistedCharacters, this`persistedBytes
      ensures ending == Proceed ==> Shows()
      ensures ending == Proceed ==> log == old(log) + [Slice(raw, text)]
      ensures log == old(log) || (log == old(log) + [Slice(raw, text)] && limits.Emits(ShownText(log)))
      ensures Slices(redactor, log)
      ensures ending != Proceed ==> Blame(items, ending)
    {
      hide ShownText, RawTokens, TokensOf, Characters, Slices, Join, Limits.Emits, Charged, Encodable, Blame, SliceFits;
      if text == [] {
        ShowNothing(raw);
        ChargedEmits(ShownText(log));
        log := log + [Slice(raw, text)];
        return Proceed;
      }
      ending := Keep(text, raw);
      if ending != Proceed {
        SliceBlamed(items, raw, text, ending);
        return;
      }
      ChargedEmits(ShownText(log));
      ending := Tell();
      if ending != Proceed {
        ForeignBlamed(items, ending);
      }
    }

    lemma ShowNothing(raw: Text)
      requires Slices(redactor, log) && SliceFits(redactor, raw, [])
      ensures ShownText(log + [Slice(raw, [])]) == ShownText(log) && Slices(redactor, log + [Slice(raw, [])])
    {
      LogGrows(log, Slice(raw, []));
      SlicesGrow(redactor, log, Slice(raw, []));
    }

    // The text is charged, and then kept.
    method Keep(text: Text, ghost raw: Text) returns (ending: Ending)
      requires Shows() && SliceFits(redactor, raw, text)
      modifies this`parts, this`log, this`emittedCharacters, this`emittedBytes, this`persistedCharacters, this`persistedBytes
      ensures ending == Proceed ==> Shows() && log == old(log) + [Slice(raw, text)]
      ensures ending != Proceed ==> log == old(log)
      ensures ending == LimitExceeded ==> !limits.Emits(ShownText(log) + text)
      ensures ending == Raised ==> !Encodable(text)
    {
      LogGrows(log, Slice(raw, text));
      SlicesGrow(redactor, log, Slice(raw, text));
      JoinGrows(parts, text);
      hide ShownText, RawTokens, Slices, Join, Limits.Emits, Charged, Encodable, SliceFits;
      ending := Charge(ShownText(log), text);
      if ending == Proceed {
        parts := parts + [text];
        log := log + [Slice(raw, text)];
      }
    }

    lemma SliceBlamed(items: seq<Item>, raw: Text, text: Text, why: Ending)
      requires RawTokens(log) + Characters(raw) <= TokensOf(items) && SliceFits(redactor, raw, text) && text != []
      requires match why
               case Proceed => false
               case LimitExceeded => !limits.Emits(ShownText(log) + text)
               case Raised => !Encodable(text)
      ensures Blame(items, why)
    {
      hide RawTokens, TokensOf, Characters, ShownText, Encodable, Limits.Emits;
      assert text == redactor.redact(raw);
    }

    lemma ForeignBlamed(items: seq<Item>, why: Ending)
      requires why != Proceed && Foreign(why)
      ensures Blame(items, why)
    {
    }

    method Charge(ghost before: Text, text: Text) returns (ending: Ending)
      requires Charged(before)
      modifies this`emittedCharacters, this`emittedBytes, this`persistedCharacters, this`persistedBytes
      ensures ending == Proceed ==> Charged(before + text)
      ensures ending == LimitExceeded ==> !limits.Emits(before + text)
      ensures ending == Raised ==> !Encodable(text)
    {
      Utf8LengthAdds(before, text);
      if !Encodable(text) {
        return Raised;
      }
      var bytes := Utf8Length(text);
      emittedCharacters, emittedBytes := emittedCharacters + |text|, emittedBytes + bytes;
      persistedCharacters, persistedBytes := persistedCharacters + |text|, persistedBytes + bytes;
      if || emittedCharacters > limits.emittedCharacters || emittedBytes > limits.emittedBytes
         || persistedCharacters > limits.persistedCharacters || persistedBytes > limits.persistedBytes
      {
        return LimitExceeded;
      }
      ending := Proceed;
    }

    // Counting what was received, before it is looked at.
    method Count(ghost items: seq<Item>, item: Item) returns (ending: Ending)
      requires receivedChunks == |items| + 1 && receivedCharacters == |Counted(items)| && receivedBytes == Utf8Length(Counted(items))
      requires receivedChunks <= limits.chunks && (item.EventChunk? ==> item.event.safe.Some?)
      modifies this`receivedCharacters, this`receivedBytes
      ensures ending == Proceed ==> Receives(items + [item]) && Palatable(item)
      ensures ending == LimitExceeded ==> !limits.Receives(|items| + 1, Counted(items + [item]))
      ensures ending == Raised ==> !Palatable(item)
    {
      var text := if item.TextChunk? then item.text else item.event.safe.value;
      assert (items + [item])[..|items|] == items;
      Utf8LengthAdds(Counted(items), text);
      receivedCharacters := receivedCharacters + |text|;
      if !Encodable(text) {
        return Raised;
      }
      receivedBytes := receivedBytes + Utf8Length(text);
      if receivedCharacters > limits.characters || receivedBytes > limits.bytes {
        return LimitExceeded;
      }
      ending := Proceed;
    }

    // A chunk of text: what is safe of the pending text is shown.
    method TakeText(ghost items: seq<Item>, text: Text) returns (ending: Ending)
      requires Shows() && Receives(items) && Follows(items)
      modifies this, incremental
      ensures ending == Proceed ==> Shows() && Receives(items + [TextChunk(text)]) && Follows(items + [TextChunk(text)])
      ensures Discreet(items + [TextChunk(text)]) && (ending == Proceed ==> Palatable(TextChunk(text)))
      ensures ending != Proceed ==> Blame(items + [TextChunk(text)], ending)
      ensures closed == old(closed)
    {
      hide TokensOf, RawTokens, ShownText, Slices, Join, Counted, Utf8Length, Limits.Emits;
      ghost var next := items + [TextChunk(text)];
      TokensGrow(items, TextChunk(text));
      StaysDiscreet(items);
      receivedChunks := receivedChunks + 1;
      assert next[..|next|] == next && next[|items|] == TextChunk(text);
      if receivedChunks > limits.chunks {
        assert !limits.Receives(|next|, Counted(next[..|next|]));
        return LimitExceeded;
      }
      ending := Count(items, TextChunk(text));
      if ending != Proceed {
        return;
      }
      ghost var pending := incremental.pending;
      var shown, raw := incremental.Push(text);
      SliceMoves(items, text, log, pending, raw, incremental.pending, shown);
      ending := Emit(shown, raw, next);
    }

    // Whatever is pending is shown.
    method Flush(ghost items: seq<Item>) returns (ending: Ending)
      requires Shows() && Follows(items)
      modifies this, incremental
      ensures ending == Proceed ==> Shows() && RawTokens(log) == TokensOf(items) && incremental.pending == []
      ensures Discreet(items) && (ending != Proceed ==> Blame(items, ending))
      ensures closed == old(closed) && receivedChunks == old(receivedChunks)
      ensures receivedCharacters == old(receivedCharacters) && receivedBytes == old(receivedBytes)
    {
      hide TokensOf, RawTokens, ShownText, Slices, Join, Counted, Utf8Length, Limits.Emits;
      StaysDiscreet(items);
      var shown, raw := incremental.Finish();
      LogGrows(log, Slice(raw, shown));
      ending := Emit(shown, raw, items);
    }

    // An event: all text before it is shown first.
    method TakeEvent(ghost items: seq<Item>, event: Event) returns (ending: Ending)
      requires Shows() && Receives(items) && Follows(items)
      modifies this, incremental
      ensures ending == Proceed ==> Shows() && Receives(items + [EventChunk(event)]) && Follows(items + [EventChunk(event)])
      ensures Discreet(items + [EventChunk(event)]) && (ending == Proceed ==> Palatable(EventChunk(event)))
      ensures ending != Proceed ==> Blame(items + [EventChunk(event)], ending)
      ensures closed == old(closed)
    {
      hide TokensOf, RawTokens, ShownText, Slices, Join, Counted, Utf8Length, Limits.Emits;
      ghost var next := items + [EventChunk(event)];
      TokensGrow(items, EventChunk(event));
      StaysDiscreet(items);
      receivedChunks := receivedChunks + 1;
      assert next[..|next|] == next && next[..|items|] == items && next[|items|] == EventChunk(event);
      if receivedChunks > limits.chunks {
        assert !limits.Receives(|next|, Counted(next[..|next|]));
        return LimitExceeded;
      }
      ending := Flush(items);
      if ending != Proceed {
        BlameLater(next, |items|, ending);
        return;
      }
      if event.safe.None? {
        return Raised;
      }
      ending := Count(items, EventChunk(event));
      if ending != Proceed {
        return;
      }
      LogGrows(log, Exposed(event));
      SlicesGrow(redactor, log, Exposed(event));
      log := log + [Exposed(event)];
      assert RawTokens(log) + Characters([]) == RawTokens(log);
      ending := CallBack(callbacks.onChunk);
    }

    // The loop over the stream. The stream itself may raise, after any number of chunks.
    method Consume(items: seq<Item>, streamEnds: Ending) returns (ending: Ending)
      requires Shows() && Receives([]) && Follows([])
      modifies this, incremental
      ensures ending == Proceed ==> Shows() && Receives(items) && RawTokens(log) == TokensOf(items) && streamEnds == Proceed
      ensures Discreet(items)
      ensures ending == Proceed ==> AllPalatable(items)
      ensures ending != Proceed ==> ending == streamEnds || Blame(items, ending)
      ensures closed == old(closed)
    {
      hide TokensOf, RawTokens, ShownText, Slices, Join, Counted, Utf8Length, Limits.Emits;
      for i := 0 to |items|
        invariant Shows() && Receives(items[..i]) && Follows(items[..i])
        invariant closed == old(closed) && AllPalatable(items[..i])
      {
        assert items[..i + 1] == items[..i] + [items[i]];
        DiscreetEarlier(items, i + 1);
        match items[i] {
          case TextChunk(text) => ending := TakeText(items[..i], text);
          case EventChunk(event) => ending := TakeEvent(items[..i], event);
        }
        if ending != Proceed {
          BlameLater(items, i + 1, ending);
          return;
        }
      }
      assert items[..|items|] == items;
      StaysDiscreet(items);
      if streamEnds != Proceed {
        return streamEnds;
      }
      ending := Flush(items);
    }

    // collect_provider_stream
    method Collect(items: seq<Item>, streamEnds: Ending) returns (r: Result)
      requires Shows() && Receives([]) && Follows([]) && !closed
      modifies this, incremental
      ensures Discreet(items)
      ensures r.Collected? ==>
                && RawTokens(log) == TokensOf(items) && limits.Receives(|items|, Counted(items)) && streamEnds == Proceed
                && r.text == redactor.redact(ShownText(log))
                && |r.text| <= limits.persistedCharacters && Utf8Length(r.text) <= limits.persistedBytes
                && AllPalatable(items)
      ensures r.Failed? ==> r.why == streamEnds || Blame(items, r.why) || BlameAtLast(r.why)
      ensures r.Failed? ==> r.why != Proceed && (closed || (Shows() && RawTokens(log) == TokensOf(items)))
    {
      hide TokensOf, RawTokens, ShownText, Slices, Counted, Utf8Length, Limits.Emits;
      var ending := Consume(items, streamEnds);
      if ending != Proceed {
        closed := true;
        return Failed(ending);
      }
      var joined := Join(parts);
      var bounded := BoundText(redactor, joined, limits.persistedCharacters);
      if !Encodable(redactor.redact(joined)) {
        return Failed(Raised);
      }
      if bounded.truncated || Utf8Length(bounded.text) > limits.persistedBytes {
        return Failed(LimitExceeded);
      }
      r := Collected(bounded.text);
    }

    // The last redaction, of the whole text shown, can make it too large to persist, or impossible to encode.
    ghost predicate BlameAtLast(why: Ending)
      reads this
    {
      var last := redactor.redact(ShownText(log));
      match why
      case Proceed => false
      case LimitExceeded => |last| > limits.persistedCharacters || Utf8Length(last) > limits.persistedBytes
      case Raised => !Encodable(last)
    }
  }

  lemma LogGrows(log: seq<Action>, action: Action)
    ensures ShownText(log + [action]) == if action.Slice? then ShownText(log) + action.shown else ShownText(log)
    ensures RawTokens(log + [action]) == RawTokens(log) + if action.Slice? then Characters(action.raw) else [Boundary(action.event)]
  {
    assert (log + [action])[..|log|] == log;
  }

  lemma TokensGrow(items: seq<Item>, item: Item)
    ensures TokensOf(items + [item]) == TokensOf(items) + if item.TextChunk? then Characters(item.text) else [Boundary(item.event)]
  {
    assert (items + [item])[..|items|] == items;
  }

  lemma CharactersAdd(a: Text, b: Text)
    ensures Characters(a + b) == Characters(a) + Characters(b)
  {
  }

  lemma SlicesGrow(r: Redactor, log: seq<Action>, action: Action)
    requires Slices(r, log) && (action.Slice? ==> SliceFits(r, action.raw, action.shown))
    ensures Slices(r, log + [action])
  {
  }

  lemma JoinGrows(parts: seq<Text>, text: Text)
    ensures Join(parts + [text]) == Join(parts) + text
  {
    assert (parts + [text])[..|parts|] == parts;
  }

  lemma Regroup(log: seq<Token>, pending: seq<Token>, text: seq<Token>, raw: seq<Token>, rest: seq<Token>)
    requires pending + text == raw + rest
    ensures log + pending + text == log + raw + rest
  {
    assert log + pending + text == log + (pending + text);
  }

  // Text that arrives is either in the slice or pending.
  lemma SliceMoves(items: seq<Item>, text: Text, log: seq<Action>, pending: Text, raw: Text, rest: Text, shown: Text)
    requires TokensOf(items) == RawTokens(log) + Characters(pending) && raw + rest == pending + text
    ensures var next := TokensOf(items + [TextChunk(text)]);
            RawTokens(log) <= next && RawTokens(log + [Slice(raw, shown)]) <= next && RawTokens(log) + Characters(raw) <= next
            && next == RawTokens(log + [Slice(raw, shown)]) + Characters(rest)
  {
    TokensGrow(items, TextChunk(text));
    LogGrows(log, Slice(raw, shown));
    CharactersAdd(pending, text);
    CharactersAdd(raw, rest);
    hide Characters, TokensOf, RawTokens;
    Regroup(RawTokens(log), Characters(pending), Characters(text), Characters(raw), Characters(rest));
  }

  lemma {:induction false} DiscreetEarlier(items: seq<Item>, n: nat)
    requires n <= |items|
    ensures TokensOf(items[..n]) <= TokensOf(items)
    decreases |items| - n
  {
    hide TokensOf;
    if n < |items| {
      DiscreetEarlier(items, n + 1);
      TokensGrow(items[..n], items[n]);
      assert items[..n + 1] == items[..n] + [items[n]];
    } else {
      assert items[..n] == items;
    }
  }

  // So an event is exposed after exactly the text that came before it, however the text was cut into slices.
  lemma {:induction false} TextBeforeEvent(log: seq<Action>, k: nat, items: seq<Item>)
    requires RawTokens(log) <= TokensOf(items) && k < |log| && log[k].Exposed?
    ensures RawTokens(log[..k]) + [Boundary(log[k].event)] <= TokensOf(items)
  {
    RawEarlier(log, k + 1);
    assert log[..k + 1][..k] == log[..k];
  }

  lemma {:induction false} RawEarlier(log: seq<Action>, n: nat)
    requires n <= |log|
    ensures RawTokens(log[..n]) <= RawTokens(log)
    decreases |log| - n
  {
    hide RawTokens;
    if n < |log| {
      RawEarlier(log, n + 1);
      LogGrows(log[..n], log[n]);
      assert log[..n + 1] == log[..n] + [log[n]];
    } else {
      assert log[..n] == log;
    }
  }

  // ---- A stream within its limits is collected ---------------------------------------------------------------------

  function AllText(items: seq<Item>): Text {
    if items == [] then []
    else AllText(items[..|items| - 1]) + if items[|items| - 1].TextChunk? then items[|items| - 1].text else []
  }

  function TextOf(tokens: seq<Token>): Text {
    if tokens == [] then []
    else TextOf(tokens[..|tokens| - 1]) + if tokens[|tokens| - 1].Character? then [tokens[|tokens| - 1].c] else []
  }

  lemma {:induction false} TextOfAdds(a: seq<Token>, b: seq<Token>)
    ensures TextOf(a + b) == TextOf(a) + TextOf(b)
    decreases |b|
  {
    if b == [] {
      assert a + b == a;
    } else {
      TextOfAdds(a, b[..|b| - 1]);
      assert (a + b)[..|a + b| - 1] == a + b[..|b| - 1];
    }
  }

  lemma {:induction false} TextOfCharacters(t: Text)
    ensures TextOf(Characters(t)) == t
  {
    if t != [] {
      var front := t[..|t| - 1];
      TextOfCharacters(front);
      assert Characters(t)[..|t| - 1] == Characters(front);
      assert t == front + [t[|t| - 1]];
    }
  }

  lemma {:induction false} TextOfTokens(items: seq<Item>)
    ensures TextOf(TokensOf(items)) == AllText(items)
  {
    if items != [] {
      var front, last := items[..|items| - 1], items[|items| - 1];
      TextOfTokens(front);
      if last.TextChunk? {
        TextOfAdds(TokensOf(front), Characters(last.text));
        TextOfCharacters(last.text);
      } else {
        TextOfAdds(TokensOf(front), [Boundary(last.event)]);
        assert TextOf([Boundary(last.event)]) == [] by { assert [Boundary(last.event)][..0] == []; }
      }
    }
  }

  // Redaction that makes no text longer and leaves it encodable.
  ghost predicate Tame(r: Redactor) {
    forall t :: |r.redact(t)| <= |t| && Utf8Length(r.redact(t)) <= Utf8Length(t) && Encodable(r.redact(t))
  }

  ghost predicate NoLonger(a: Text, b: Text) {
    |a| <= |b| && Utf8Length(a) <= Utf8Length(b)
  }

  lemma NoLongerAdds(a: Text, b: Text, c: Text, d: Text)
    requires NoLonger(a, b) && NoLonger(c, d)
    ensures NoLonger(a + c, b + d)
  {
    Utf8LengthAdds(a, c);
    Utf8LengthAdds(b, d);
  }

  lemma {:induction false} ShownNoLonger(r: Redactor, log: seq<Action>)
    requires Tame(r) && Slices(r, log)
    ensures NoLonger(ShownText(log), TextOf(RawTokens(log)))
  {
    if log != [] {
      var front, last := log[..|log| - 1], log[|log| - 1];
      ShownNoLonger(r, front);
      if last.Slice? {
        assert SliceFits(r, last.raw, last.shown) && NoLonger(last.shown, last.raw);
        TextOfAdds(RawTokens(front), Characters(last.raw));
        TextOfCharacters(last.raw);
        NoLongerAdds(ShownText(front), TextOf(RawTokens(front)), last.shown, last.raw);
      } else {
        TextOfAdds(RawTokens(front), [Boundary(last.event)]);
        assert TextOf([Boundary(last.event)]) == [] by { assert [Boundary(last.event)][..0] == []; }
        assert ShownText(log) == ShownText(front) && TextOf(RawTokens(log)) == TextOf(RawTokens(front));
      }
    }
  }

  // What was shown, and what would be shown with any further slice, is no longer than the text of the stream.
  lemma ShownWithin(r: Redactor, log: seq<Action>, raw: Text, items: seq<Item>)
    requires Tame(r) && Slices(r, log) && RawTokens(log) + Characters(raw) <= TokensOf(items)
    ensures NoLonger(ShownText(log) + r.redact(raw), AllText(items))
  {
    var start := RawTokens(log) + Characters(raw);
    var rest := TokensOf(items)[|start|..];
    assert TokensOf(items) == start + rest;
    TextOfAdds(start, rest);
    TextOfAdds(RawTokens(log), Characters(raw));
    TextOfCharacters(raw);
    TextOfTokens(items);
    ShownNoLonger(r, log);
    assert NoLonger(r.redact(raw), raw);
    NoLongerAdds(ShownText(log), TextOf(RawTokens(log)), r.redact(raw), raw);
    Utf8LengthAdds(TextOf(start), TextOf(rest));
  }

  // So a stream that stays inside all limits, of chunks that can be encoded, is collected when nothing raises.
  method CollectWithin(redactor: Redactor, limits: Limits, callbacks: Callbacks, items: seq<Item>) returns (r: Result)
    requires limits.Positive() && Tame(redactor) && AllPalatable(items)
    requires forall i: nat :: callbacks.ends(i) == Proceed
    requires forall n :: 0 <= n <= |items| ==> limits.Receives(n, Counted(items[..n]))
    requires limits.Emits(AllText(items))
    ensures r.Collected?
  {
    hide Tame, Counted, Limits.Receives;
    var collector := new Collector(redactor, limits, callbacks);
    r := collector.Collect(items, Proceed);
    if r.Failed? {
      NothingToBlame(collector, items, r.why);
      NothingAtLast(collector, items, r.why);
    }
  }

  lemma NothingToBlame(collector: Collector, items: seq<Item>, why: Ending)
    requires Tame(collector.redactor) && AllPalatable(items) && collector.Discreet(items)
    requires forall i: nat :: collector.callbacks.ends(i) == Proceed
    requires forall n :: 0 <= n <= |items| ==> collector.limits.Receives(n, Counted(items[..n]))
    requires collector.limits.Emits(AllText(items))
    ensures !collector.Blame(items, why)
  {
    var r, log := collector.redactor, collector.log;
    forall raw | RawTokens(log) + Characters(raw) <= TokensOf(items)
      ensures NoLonger(ShownText(log) + r.redact(raw), AllText(items)) && Encodable(r.redact(raw))
    {
      ShownWithin(r, log, raw, items);
    }
    hide Tame, Counted, Limits.Receives, RawTokens, ShownText, TokensOf, Characters, AllText, Utf8Length, Encodable, Palatable;
  }

  lemma NothingAtLast(collector: Collector, items: seq<Item>, why: Ending)
    requires Tame(collector.redactor) && collector.Discreet(items) && collector.limits.Emits(AllText(items))
    ensures !collector.BlameAtLast(why)
  {
    var r, log := collector.redactor, collector.log;
    assert RawTokens(log) + Characters([]) == RawTokens(log);
    ShownWithin(r, log, [], items);
    assert ShownText(log) <= ShownText(log) + r.redact([]);
    Utf8LengthAdds(ShownText(log), r.redact([]));
    LastIsTame(r, ShownText(log));
    hide Tame, RawTokens, ShownText, TokensOf, Characters, AllText, Utf8Length, Encodable;
  }

  lemma LastIsTame(r: Redactor, t: Text)
    requires Tame(r)
    ensures NoLonger(r.redact(t), t) && Encodable(r.redact(t))
  {
  }
}
