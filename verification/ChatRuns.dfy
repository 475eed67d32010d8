// Bounded chats with one worker each: accepted messages, their runs and the history each run is given
// (corvus/conversations.py). Each method of the runtime is the code between two await points.
module ChatRuns {

  type ChatId = nat
  type Message = string

  datatype Limits = Limits(
    maxChats: nat, maxConcurrentRuns: nat, maxQueued: nat, maxContext: nat, maxRunsPerChat: nat, maxMessageChars: nat,
    maxOutputChars: nat)

  datatype Status = Idle | Running | Cancelled

  // Where the worker of a chat stands. Run k of a chat is the run of the k-th message taken from its inbox.
  // Announcing publishes run.queued, Queued waits for the semaphore, Executing is inside the runner, Reporting has a
  // reply and publishes it, Closing is past the terminal event, Exited is the end of a cancelled worker.
  datatype Phase = Waiting | Announcing | Queued | Executing | Reporting | Closing | Exited

  datatype Entry = FromUser(message: Message) | FromAssistant(text: string)
  datatype Exchange = Exchange(message: Message, reply: seq<string>)

  datatype Terminal = Completed | Failed | TimedOut | Interrupted

  // The fields the runtime keeps, followed by the record on which conservation and history are stated: everything
  // accepted, taken and dropped, the exchanges so far, the terminal events and the histories handed out.
  datatype Chat = Chat(
    status: Status, inbox: seq<Message>, submitted: nat, phase: Phase, context: seq<Entry>,
    accepted: seq<Message>, taken: seq<Message>, dropped: seq<Message>, exchanges: seq<Exchange>,
    terminals: seq<(nat, Terminal)>, given: map<nat, seq<Entry>>)
  {
    // The run the worker is on.
    ghost function Run(): int {
      |taken| - 1
    }

    predicate Holding() {
      phase in {Executing, Reporting}
    }

    predicate Active() {
      phase !in {Waiting, Exited}
    }
  }

  // deque(maxlen=limit)
  function LastOf<T>(s: seq<T>, limit: nat): (r: seq<T>)
    ensures |r| <= limit && |r| <= |s| && r == s[|s| - |r|..]
  {
    if |s| <= limit then s else s[|s| - limit..]
  }

  lemma LastOfIsLongest<T>(s: seq<T>, limit: nat)
    ensures |LastOf(s, limit)| == limit || LastOf(s, limit) == s
  {
  }

  function Append<T>(s: seq<T>, x: T, limit: nat): seq<T> {
    LastOf(s + [x], limit)
  }

  // m1, a1?, m2, a2?, ...
  function Transcript(exchanges: seq<Exchange>): seq<Entry> {
    if exchanges == [] then []
    else
      var last := exchanges[|exchanges| - 1];
      Transcript(exchanges[..|exchanges| - 1]) + [FromUser(last.message)]
      + if last.reply == [] then [] else [FromAssistant(last.reply[0])]
  }

  lemma AppendIsSuffix<T>(full: seq<T>, x: T, limit: nat)
    ensures Append(LastOf(full, limit), x, limit) == LastOf(full + [x], limit)
  {
  }

  ghost predicate Increasing(s: seq<(nat, Terminal)>) {
    forall i, j :: 0 <= i < j < |s| ==> s[i].0 < s[j].0
  }

  // Conservation, in order: what was accepted is what was taken, what is queued and what was dropped.
  ghost predicate QueueFits(limits: Limits, c: Chat) {
    && c.accepted == c.taken + c.inbox + c.dropped
    && |c.inbox| <= limits.maxQueued
    && c.submitted == |c.accepted| <= limits.maxRunsPerChat
    && (c.status == Cancelled ==> c.inbox == [])
    && (c.status != Cancelled ==> c.dropped == [] && c.phase != Exited)
    && (c.Active() ==> c.taken != [])
  }

  ghost predicate GivenFits(limits: Limits, c: Chat, k: nat) {
    && k < |c.taken| && k < |c.exchanges| && k in c.given
    && c.given[k] == LastOf(Transcript(c.exchanges[..k]) + [FromUser(c.taken[k])], limits.maxContext)
  }

  // One exchange for each message taken; the context is a bounded suffix of the conversation, and so was the history
  // each run was given, ending with the run's own message.
  ghost predicate HistoryFits(limits: Limits, c: Chat) {
    && |c.exchanges| == |c.taken|
    && (forall k :: 0 <= k < |c.taken| ==> c.exchanges[k].message == c.taken[k])
    && c.context == LastOf(Transcript(c.exchanges), limits.maxContext)
    && (c.phase in {Announcing, Queued, Executing} ==> c.taken != [] && c.exchanges[|c.taken| - 1].reply == [])
    && (forall k :: k in c.given ==> GivenFits(limits, c, k))
  }

  // Terminal events come in the order of the runs, at most one each, and none for a run that is not closing.
  ghost predicate TerminalsFit(c: Chat) {
    && Increasing(c.terminals)
    && (forall i :: 0 <= i < |c.terminals| ==> c.terminals[i].0 < |c.taken|)
    && (c.phase in {Announcing, Queued, Executing, Reporting} ==>
          forall i :: 0 <= i < |c.terminals| ==> c.terminals[i].0 < c.Run())
  }

  ghost predicate ChatFits(limits: Limits, c: Chat) {
    QueueFits(limits, c) && HistoryFits(limits, c) && TerminalsFit(c) && (c.status != Cancelled ==> (c.status == Running <==> c.Active()))
  }

  // ---- The steps of one chat ---------------------------------------------------------------------------------------

  const NewChat := Chat(Idle, [], 0, Waiting, [], [], [], [], [], [], map[])

  function Accept(c: Chat, m: Message): Chat {
    c.(inbox := c.inbox + [m], submitted := c.submitted + 1, accepted := c.accepted + [m])
  }

  function Take(limits: Limits, c: Chat): Chat
    requires c.inbox != []
  {
    var m := c.inbox[0];
    c.(inbox := c.inbox[1..], status := Running, phase := Announcing,
       context := Append(c.context, FromUser(m), limits.maxContext),
       taken := c.taken + [m], exchanges := c.exchanges + [Exchange(m, [])])
  }

  function Begin(c: Chat): Chat
    requires c.taken != []
  {
    c.(phase := Executing, given := c.given[|c.taken| - 1 := c.context])
  }

  function Reply(limits: Limits, c: Chat, text: string): Chat
    requires c.exchanges != []
  {
    var last := |c.exchanges| - 1;
    c.(phase := Reporting, context := Append(c.context, FromAssistant(text), limits.maxContext),
       exchanges := c.exchanges[last := c.exchanges[last].(reply := [text])])
  }

  function Terminate(c: Chat, t: Terminal): Chat
    requires c.taken != []
  {
    c.(phase := Closing, terminals := c.terminals + [(|c.taken| - 1, t)])
  }

  // The run on hand is over, with this terminal event and no other change.
  ghost predicate EndedWith(c: Chat, d: Chat, t: Terminal) {
    |c.taken| > 0 && d == c.(phase := Closing, terminals := c.terminals + [(|c.taken| - 1, t)])
  }

  // The end of the finally block; a cancelled worker does not go back to its inbox.
  function Finish(c: Chat): Chat {
    if c.status == Cancelled then c.(phase := Exited) else c.(phase := Waiting, status := Idle)
  }

  // _cancel_chat up to its first wait.
  function Cancel(c: Chat): Chat {
    c.(status := Cancelled, inbox := [], dropped := c.dropped + c.inbox,
       phase := if c.phase == Waiting then Exited else c.phase)
  }

  lemma AcceptFits(limits: Limits, c: Chat, m: Message)
    requires ChatFits(limits, c) && c.status != Cancelled && |c.inbox| < limits.maxQueued && c.submitted < limits.maxRunsPerChat
    ensures ChatFits(limits, Accept(c, m))
  {
    hide Transcript, LastOf;
    assert c.taken + (c.inbox + [m]) + c.dropped == c.accepted + [m];
    SameGiven(limits, c, Accept(c, m));
  }

  // A step that keeps the messages taken and their earlier exchanges leaves the histories already given in place.
  lemma SameGiven(limits: Limits, c: Chat, d: Chat)
    requires HistoryFits(limits, c) && d.given == c.given && c.taken <= d.taken && |c.exchanges| <= |d.exchanges|
    requires forall k :: 0 <= k < |c.exchanges| ==> d.exchanges[..k] == c.exchanges[..k]
    ensures forall k :: k in d.given ==> GivenFits(limits, d, k)
  {
    forall k | k in d.given ensures GivenFits(limits, d, k) {
      assert GivenFits(limits, c, k);
    }
  }

  lemma TakeFits(limits: Limits, c: Chat)
    requires ChatFits(limits, c) && c.inbox != [] && c.phase == Waiting
    ensures ChatFits(limits, Take(limits, c))
  {
    hide LastOf;
    var d := Take(limits, c);
    assert QueueFits(limits, d) by {
      assert c.taken + c.inbox == d.taken + d.inbox;
    }
    assert HistoryFits(limits, d) by {
      assert d.exchanges[..|c.exchanges|] == c.exchanges;
      AppendIsSuffix(Transcript(c.exchanges), FromUser(c.inbox[0]), limits.maxContext);
      assert Transcript(d.exchanges) == Transcript(c.exchanges) + [FromUser(c.inbox[0])];
      SameGiven(limits, c, d);
    }
  }

  lemma BeginFits(limits: Limits, c: Chat)
    requires ChatFits(limits, c) && c.phase == Queued
    ensures ChatFits(limits, Begin(c))
  {
    hide LastOf;
    BeginGives(limits, c);
    hide GivenFits, Transcript;
  }

  // The history handed out is the context, which ends with the run's own message.
  lemma BeginGives(limits: Limits, c: Chat)
    requires HistoryFits(limits, c) && c.phase == Queued
    ensures forall k :: k in Begin(c).given ==> GivenFits(limits, Begin(c), k)
  {
    hide LastOf;
    var n := |c.exchanges| - 1;
    assert Transcript(c.exchanges) == Transcript(c.exchanges[..n]) + [FromUser(c.taken[n])];
    hide Transcript;
    forall k | k in Begin(c).given ensures GivenFits(limits, Begin(c), k) {
      assert k != n ==> GivenFits(limits, c, k);
    }
  }

  lemma ReplyFits(limits: Limits, c: Chat, text: string)
    requires ChatFits(limits, c) && c.phase == Executing
    ensures ChatFits(limits, Reply(limits, c, text))
  {
    hide LastOf;
    var d := Reply(limits, c, text);
    ReplyExtends(limits, c, text);
    SameQueue(limits, c, d);
    hide Transcript, GivenFits, QueueFits, Append, Increasing;
  }

  lemma SameQueue(limits: Limits, c: Chat, d: Chat)
    requires QueueFits(limits, c) && c.Active() && d.Active()
    requires d == c.(phase := d.phase, context := d.context, exchanges := d.exchanges)
    ensures QueueFits(limits, d)
  {
    hide LastOf, Transcript;
  }

  // The reply goes behind its own message, into the transcript and into the context.
  lemma ReplyExtends(limits: Limits, c: Chat, text: string)
    requires HistoryFits(limits, c) && c.phase == Executing
    ensures
      var d := Reply(limits, c, text);
      && d.context == LastOf(Transcript(d.exchanges), limits.maxContext)
      && forall k :: k in d.given ==> GivenFits(limits, d, k)
  {
    hide LastOf;
    var d := Reply(limits, c, text);
    var n := |c.exchanges| - 1;
    assert d.exchanges[..n] == c.exchanges[..n];
    assert Transcript(d.exchanges) == Transcript(c.exchanges) + [FromAssistant(text)];
    hide Transcript;
    AppendIsSuffix(Transcript(c.exchanges), FromAssistant(text), limits.maxContext);
    SameGiven(limits, c, d);
  }

  lemma TerminateFits(limits: Limits, c: Chat, t: Terminal)
    requires ChatFits(limits, c) && c.Holding()
    ensures ChatFits(limits, Terminate(c, t))
  {
    hide LastOf, Transcript;
    SameGiven(limits, c, Terminate(c, t));
  }

  lemma CancelFits(limits: Limits, c: Chat)
    requires ChatFits(limits, c) && c.status != Cancelled
    ensures ChatFits(limits, Cancel(c))
  {
    hide LastOf, Transcript;
    assert c.taken + c.inbox + [] == c.taken + [] + ([] + c.inbox);
    SameGiven(limits, c, Cancel(c));
  }

  // Moving on without touching the record.
  lemma PhaseFits(limits: Limits, c: Chat, phase: Phase)
    requires ChatFits(limits, c) && c.Active()
    requires
      || (phase == Queued && c.phase == Announcing)
      || phase == Closing
      || (phase == Exited && c.status == Cancelled)
    ensures ChatFits(limits, c.(phase := phase))
  {
    hide LastOf, Transcript;
    SameGiven(limits, c, c.(phase := phase));
  }

  // What the record of a chat tells: no run has two terminal events; and the history run k was given is a bounded
  // suffix of the conversation made of the first k + 1 messages accepted, with the replies to those before its own.
  lemma {:induction false} RecordTells(limits: Limits, c: Chat, i: nat, j: nat, k: nat)
    requires ChatFits(limits, c)
    ensures i < j < |c.terminals| ==> c.terminals[i].0 != c.terminals[j].0
    ensures k in c.given ==>
              && k < |c.exchanges|
              && c.given[k] == LastOf(Transcript(c.exchanges[..k]) + [FromUser(c.accepted[k])], limits.maxContext)
              && forall m :: 0 <= m <= k ==> c.exchanges[m].message == c.accepted[m]
  {
    hide LastOf, Transcript;
    if k in c.given {
      assert GivenFits(limits, c, k);
    }
  }

  // ---- The runtime -------------------------------------------------------------------------------------------------

  datatype SendError = RuntimeClosed | MessageEmpty | MessageTooLong | UnknownChat | ChatCancelled | RunLimit | QueueFull
  datatype SendResult = Sent | Rejected(error: SendError)

  ghost function HoldingChats(chats: map<ChatId, Chat>): set<ChatId> {
    set id | id in chats && chats[id].Holding()
  }

  ghost predicate Valid(limits: Limits, chats: map<ChatId, Chat>, permits: int) {
    && (forall id :: id in chats ==> ChatFits(limits, chats[id]))
    && 0 <= permits && permits + |HoldingChats(chats)| == limits.maxConcurrentRuns
    && |chats| <= limits.maxChats
  }

  function Permit(c: Chat): int {
    if c.Holding() then 1 else 0
  }

  lemma UpdateFits(limits: Limits, chats: map<ChatId, Chat>, permits: int, id: ChatId, c: Chat)
    requires Valid(limits, chats, permits) && id in chats && ChatFits(limits, c)
    requires 0 <= permits + Permit(chats[id]) - Permit(c)
    ensures Valid(limits, chats[id := c], permits + Permit(chats[id]) - Permit(c))
  {
    hide QueueFits, HistoryFits, TerminalsFit;
    var before, after := HoldingChats(chats), HoldingChats(chats[id := c]);
    if c.Holding() {
      assert after == before + {id};
    } else {
      assert after == before - {id};
    }
    assert chats[id := c].Keys == chats.Keys;
    Sizes(chats, chats[id := c]);
  }

  lemma Sizes(a: map<ChatId, Chat>, b: map<ChatId, Chat>)
    requires a.Keys == b.Keys
    ensures |a| == |b|
  {
    assert |a| == |a.Keys| && |b| == |b.Keys|;
  }

  // A cancelled chat never runs again; no message is taken back; and no chat disappears.
  ghost predicate Grows(c: Chat, d: Chat) {
    && c.taken <= d.taken && c.accepted <= d.accepted
    && (c.status == Cancelled ==> d.status == Cancelled && d.taken == c.taken && d.given == c.given)
  }

  ghost predicate Monotone(before: map<ChatId, Chat>, after: map<ChatId, Chat>) {
    forall id :: id in before ==> id in after && Grows(before[id], after[id])
  }

  lemma FitsAt(limits: Limits, chats: map<ChatId, Chat>, permits: int, id: ChatId)
    requires Valid(limits, chats, permits) && id in chats
    ensures ChatFits(limits, chats[id]) && 0 <= permits
  {
  }

  lemma MonotoneUpdate(chats: map<ChatId, Chat>, id: ChatId, c: Chat)
    requires id in chats ==> Grows(chats[id], c)
    ensures Monotone(chats, chats) && Monotone(chats, chats[id := c])
  {
  }

  lemma MonotoneTransitive(a: map<ChatId, Chat>, b: map<ChatId, Chat>, c: map<ChatId, Chat>)
    requires Monotone(a, b) && Monotone(b, c)
    ensures Monotone(a, c)
  {
    forall id | id in a ensures id in c && Grows(a[id], c[id]) {
      assert Grows(a[id], b[id]) && Grows(b[id], c[id]);
    }
  }

  class ChatRuntime {
    const limits: Limits
    var chats: map<ChatId, Chat>
    var permits: int
    var closing: bool

    constructor (limits: Limits)
      ensures Good() && this.limits == limits && chats == map[] && permits == limits.maxConcurrentRuns && !closing
    {
      this.limits := limits;
      chats, permits, closing := map[], limits.maxConcurrentRuns, false;
    }

    ghost predicate Good()
      reads this
    {
      Valid(limits, chats, permits)
    }

    // The one way a chat changes, with its permit.
    method Put(id: ChatId, c: Chat)
      requires Good() && id in chats && ChatFits(limits, c) && 0 <= permits + Permit(chats[id]) - Permit(c)
      requires Grows(chats[id], c)
      modifies this`chats, this`permits
      ensures Good() && Monotone(old(chats), chats) && chats == old(chats)[id := c] && permits == old(permits + Permit(chats[id])) - Permit(c)
    {
      hide Valid, Monotone, HoldingChats, ChatFits, Grows;
      MonotoneUpdate(chats, id, c);
      UpdateFits(limits, chats, permits, id, c);
      permits := permits + Permit(chats[id]) - Permit(c);
      chats := chats[id := c];
    }

    method CreateChat(id: ChatId) returns (created: bool)
      requires Good() && id !in chats
      modifies this`chats
      ensures Good() && Monotone(old(chats), chats) && created == (!closing && |old(chats)| < limits.maxChats)
      ensures chats == if created then old(chats)[id := NewChat] else old(chats)
    {
      hide Valid, Monotone, HoldingChats, Grows;
      MonotoneUpdate(chats, id, NewChat);
      created := !closing && |chats| < limits.maxChats;
      if created {
        CreateFits(limits, chats, permits, id);
        chats := chats[id := NewChat];
      } else {
        MonotoneUpdate(chats, id, NewChat);
      }
    }

    function SendProblem(id: ChatId, text: string): SendResult
      reads this
    {
      if closing then Rejected(RuntimeClosed)
      else if text == "" then Rejected(MessageEmpty)
      else if |text| > limits.maxMessageChars then Rejected(MessageTooLong)
      else if id !in chats then Rejected(UnknownChat)
      else if chats[id].status == Cancelled then Rejected(ChatCancelled)
      else if chats[id].submitted >= limits.maxRunsPerChat then Rejected(RunLimit)
      else if |chats[id].inbox| >= limits.maxQueued then Rejected(QueueFull)
      else Sent
    }

    // A rejection names what is the case.
    predicate Justified(error: SendError, chats: map<ChatId, Chat>, id: ChatId, text: string)
      reads this`closing
    {
      match error
      case RuntimeClosed => closing
      case MessageEmpty => |text| == 0
      case MessageTooLong => |text| > limits.maxMessageChars
      case UnknownChat => id !in chats
      case ChatCancelled => id in chats && chats[id].status == Cancelled
      case RunLimit => id in chats && chats[id].submitted >= limits.maxRunsPerChat
      case QueueFull => id in chats && |chats[id].inbox| >= limits.maxQueued
    }

    // The text has been stripped. Everything up to the publication of message.received is one step.
    method SendMessage(id: ChatId, text: string) returns (result: SendResult)
      requires Good()
      modifies this`chats, this`permits
      ensures Good() && Monotone(old(chats), chats) && result == old(SendProblem(id, text)) && permits == old(permits)
      ensures result == Sent <==>
                && !closing && 0 < |text| <= limits.maxMessageChars && id in old(chats) && old(chats)[id].status != Cancelled
                && old(chats)[id].submitted < limits.maxRunsPerChat && |old(chats)[id].inbox| < limits.maxQueued
      ensures result.Rejected? ==> Justified(result.error, old(chats), id, text)
      ensures result == Sent ==>
                && id in old(chats)
                && var c := old(chats)[id];
                   chats == old(chats)[id := c.(inbox := c.inbox + [text], submitted := c.submitted + 1, accepted := c.accepted + [text])]
      ensures result != Sent ==> chats == old(chats)
    {
      hide Valid, Monotone, HoldingChats, HistoryFits, TerminalsFit, LastOf, Transcript;
      MonotoneUpdate(chats, id, if id in chats then chats[id] else NewChat);
      result := SendProblem(id, text);
      if result == Sent {
        FitsAt(limits, chats, permits, id);
        AcceptFits(limits, chats[id], text);
        Put(id, Accept(chats[id], text));
      }
    }

    // The worker wakes with the oldest message of its inbox.
    method TakeMessage(id: ChatId)
      requires Good() && id in chats && chats[id].phase == Waiting && chats[id].inbox != []
      modifies this`chats, this`permits
      ensures Good() && Monotone(old(chats), chats) && permits == old(permits)
      ensures
        var c := old(chats)[id];
        var m := c.inbox[0];
        chats == old(chats)[id := c.(
                   inbox := c.inbox[1..], status := Running, phase := Announcing, taken := c.taken + [m],
                   context := LastOf(c.context + [FromUser(m)], limits.maxContext), exchanges := c.exchanges + [Exchange(m, [])])]
    {
      hide Valid, Monotone, HoldingChats, HistoryFits, TerminalsFit, LastOf, Transcript;
      FitsAt(limits, chats, permits, id);
      TakeFits(limits, chats[id]);
      Put(id, Take(limits, chats[id]));
    }

    method Announced(id: ChatId)
      requires Good() && id in chats && chats[id].phase == Announcing && chats[id].status != Cancelled
      modifies this`chats, this`permits
      ensures Good() && Monotone(old(chats), chats) && permits == old(permits) && chats == old(chats)[id := old(chats)[id].(phase := Queued)]
    {
      hide Valid, Monotone, HoldingChats, HistoryFits, TerminalsFit, LastOf, Transcript;
      FitsAt(limits, chats, permits, id);
      PhaseFits(limits, chats[id], Queued);
      Put(id, chats[id].(phase := Queued));
    }

    // A permit is free: the runner is called with the history. A worker whose cancellation was requested is not
    // resumed here; asyncio raises in it instead.
    method BeginRun(id: ChatId) returns (history: seq<Entry>)
      requires Good() && id in chats && chats[id].phase == Queued && chats[id].status != Cancelled && permits > 0
      modifies this`chats, this`permits
      ensures Good() && Monotone(old(chats), chats) && permits == old(permits) - 1 && chats == old(chats)[id := Begin(old(chats)[id])]
      ensures |HoldingChats(chats)| <= limits.maxConcurrentRuns
      ensures chats[id].phase == Executing && |chats[id].taken| - 1 in chats[id].given && chats[id].given[|chats[id].taken| - 1] == history
      ensures
        var c := old(chats)[id];
        && |history| <= limits.maxContext
        && history == LastOf(Transcript(c.exchanges), limits.maxContext)
        && Transcript(c.exchanges) == Transcript(c.exchanges[..|c.taken| - 1]) + [FromUser(c.taken[|c.taken| - 1])]
    {
      hide Valid, Monotone, TerminalsFit;
      FitsAt(limits, chats, permits, id);
      WithinSemaphore(limits, chats, permits);
      BeginFits(limits, chats[id]);
      history := chats[id].context;
      Put(id, Begin(chats[id]));
      WithinSemaphore(limits, chats, permits);
    }

    // The runner returned; an empty or overlong reply counts as a failure instead.
    method RunnerReplied(id: ChatId, text: string) returns (valid: bool)
      requires Good() && id in chats && chats[id].phase == Executing && chats[id].status != Cancelled
      modifies this`chats, this`permits
      ensures Good() && Monotone(old(chats), chats) && valid == (0 < |text| <= limits.maxOutputChars)
      ensures chats == old(chats)[id := if valid then Reply(limits, old(chats)[id], text) else Terminate(old(chats)[id], Failed)]
      ensures valid ==>
                && chats[id].context == LastOf(old(chats)[id].context + [FromAssistant(text)], limits.maxContext)
                && chats[id].terminals == old(chats)[id].terminals
      ensures !valid ==> chats[id].terminals == old(chats)[id].terminals + [(|chats[id].taken| - 1, Failed)]
      ensures permits == old(permits) + if valid then 0 else 1
    {
      hide Valid, Monotone, HoldingChats, TerminalsFit, GivenFits, LastOf, Transcript;
      FitsAt(limits, chats, permits, id);
      valid := 0 < |text| <= limits.maxOutputChars;
      if valid {
        ReplyFits(limits, chats[id], text);
        Put(id, Reply(limits, chats[id], text));
      } else {
        TerminateFits(limits, chats[id], Failed);
        Put(id, Terminate(chats[id], Failed));
      }
    }

    // The terminal event is published and the permit given back. A run completes without a reply or after reporting
    // one; it can still fail while reporting.
    method EndRun(id: ChatId, t: Terminal)
      requires Good() && id in chats && chats[id].Holding()
      requires t == Interrupted <==> chats[id].status == Cancelled
      requires t == TimedOut ==> chats[id].phase == Executing
      modifies this`chats, this`permits
      ensures chats == old(chats)[id := Terminate(old(chats)[id], t)] && permits == old(permits) + 1
      ensures Good() && Monotone(old(chats), chats) && EndedWith(old(chats)[id], chats[id], t)
    {
      hide Valid, Monotone, HoldingChats, HistoryFits, TerminalsFit, LastOf, Transcript;
      FitsAt(limits, chats, permits, id);
      TerminateFits(limits, chats[id], t);
      Put(id, Terminate(chats[id], t));
    }

    // Cancellation strikes where no terminal event is published: before the try block the worker simply exits, in
    // the wait for the semaphore or in the publication of the terminal event itself only the finally block runs.
    method Strike(id: ChatId)
      requires Good() && id in chats && chats[id].status == Cancelled && chats[id].Active()
      modifies this`chats, this`permits
      ensures Good() && Monotone(old(chats), chats) && permits == old(permits + Permit(chats[id]))
      ensures
        var c := old(chats)[id];
        chats == old(chats)[id := c.(phase := if c.phase in {Announcing, Closing} then Exited else Closing)]
    {
      hide Valid, Monotone, HoldingChats, HistoryFits, TerminalsFit, LastOf, Transcript;
      FitsAt(limits, chats, permits, id);
      var phase := if chats[id].phase in {Announcing, Closing} then Exited else Closing;
      PhaseFits(limits, chats[id], phase);
      Put(id, chats[id].(phase := phase));
    }

    method FinishRun(id: ChatId)
      requires Good() && id in chats && chats[id].phase == Closing
      modifies this`chats, this`permits
      ensures Good() && Monotone(old(chats), chats) && permits == old(permits)
      ensures
        var c := old(chats)[id];
        chats == old(chats)[id := if c.status == Cancelled then c.(phase := Exited) else c.(phase := Waiting, status := Idle)]
    {
      hide Valid, Monotone, HoldingChats, HistoryFits, TerminalsFit, LastOf, Transcript;
      FitsAt(limits, chats, permits, id);
      var c := Finish(chats[id]);
      FinishFits(limits, chats[id]);
      Put(id, c);
    }

    method CancelChat(id: ChatId)
      requires Good() && id in chats
      modifies this`chats, this`permits
      ensures Good() && Monotone(old(chats), chats) && permits == old(permits)
      ensures
        var c := old(chats)[id];
        chats == if c.status == Cancelled then old(chats)
                 else old(chats)[id := c.(
                        status := Cancelled, inbox := [], dropped := c.dropped + c.inbox,
                        phase := if c.phase == Waiting then Exited else c.phase)]
    {
      hide Valid, Monotone, HoldingChats, HistoryFits, TerminalsFit, LastOf, Transcript;
      FitsAt(limits, chats, permits, id);
      MonotoneUpdate(chats, id, chats[id]);
      if chats[id].status != Cancelled {
        CancelFits(limits, chats[id]);
        Put(id, Cancel(chats[id]));
      }
    }

    method Close()
      requires Good()
      modifies this`closing
      ensures Good() && Monotone(old(chats), chats) && closing
    {
      MonotoneUpdate(chats, 0, if 0 in chats then chats[0] else NewChat);
      closing := true;
    }
  }

  lemma NewChatFits(limits: Limits)
    ensures ChatFits(limits, NewChat)
  {
    assert Transcript([]) == [] && LastOf<Entry>([], limits.maxContext) == [];
  }

  lemma CreateFits(limits: Limits, chats: map<ChatId, Chat>, permits: int, id: ChatId)
    requires Valid(limits, chats, permits) && id !in chats && |chats| < limits.maxChats
    ensures Valid(limits, chats[id := NewChat], permits)
  {
    hide ChatFits;
    NewChatFits(limits);
    assert HoldingChats(chats[id := NewChat]) == HoldingChats(chats);
    assert chats[id := NewChat].Keys == chats.Keys + {id};
    assert |chats[id := NewChat]| == |chats| + 1;
  }

  lemma FinishFits(limits: Limits, c: Chat)
    requires ChatFits(limits, c) && c.phase == Closing
    ensures ChatFits(limits, Finish(c))
  {
    hide LastOf, Transcript;
    SameGiven(limits, c, Finish(c));
  }

  // ---- Whole runs ------------------------------------------------------------------------------------------------

  datatype Step =
    | DoCreate(id: ChatId) | DoSend(id: ChatId, text: string) | DoTake(id: ChatId) | DoAnnounced(id: ChatId)
    | DoBegin(id: ChatId) | DoReply(id: ChatId, text: string) | DoEnd(id: ChatId, terminal: Terminal)
    | DoStrike(id: ChatId) | DoFinish(id: ChatId) | DoCancel(id: ChatId) | DoClose

  method TakeStep(r: ChatRuntime, step: Step)
    requires r.Good()
    modifies r
    ensures r.Good() && Monotone(old(r.chats), r.chats)
  {
    hide ChatFits, Valid, LastOf, Transcript, HoldingChats, Grows, Monotone;
    var chats := r.chats;
    MonotoneUpdate(chats, 0, if 0 in chats then chats[0] else NewChat);
    match step
    case DoCreate(id) => if id !in chats { var _ := r.CreateChat(id); }
    case DoSend(id, text) => var _ := r.SendMessage(id, text);
    case DoTake(id) => if id in chats && chats[id].phase == Waiting && chats[id].inbox != [] && chats[id].status != Cancelled { r.TakeMessage(id); }
    case DoAnnounced(id) => if id in chats && chats[id].phase == Announcing && chats[id].status != Cancelled { r.Announced(id); }
    case DoBegin(id) =>
      if id in chats && chats[id].phase == Queued && chats[id].status != Cancelled && r.permits > 0 { var _ := r.BeginRun(id); }
    case DoReply(id, text) =>
      if id in chats && chats[id].phase == Executing && chats[id].status != Cancelled { var _ := r.RunnerReplied(id, text); }
    case DoEnd(id, t) =>
      if id in chats && chats[id].Holding() && (t == Interrupted <==> chats[id].status == Cancelled)
         && (t == TimedOut ==> chats[id].phase == Executing) { r.EndRun(id, t); }
    case DoStrike(id) => if id in chats && chats[id].status == Cancelled && chats[id].Active() { r.Strike(id); }
    case DoFinish(id) => if id in chats && chats[id].phase == Closing { r.FinishRun(id); }
    case DoCancel(id) => if id in chats { r.CancelChat(id); }
    case DoClose => r.Close();
  }

  lemma WithinSemaphore(limits: Limits, chats: map<ChatId, Chat>, permits: int)
    requires Valid(limits, chats, permits)
    ensures |HoldingChats(chats)| <= limits.maxConcurrentRuns
  {
  }

  // In every state reachable by any interleaving: messages are conserved in order, runs keep within the semaphore, no
  // run has two terminal events, histories are bounded suffixes, and a cancelled chat stays as it is.
  method Run(r: ChatRuntime, steps: seq<Step>)
    requires r.Good()
    modifies r
    ensures r.Good() && Monotone(old(r.chats), r.chats)
    ensures |HoldingChats(r.chats)| <= r.limits.maxConcurrentRuns
  {
    hide Valid, Monotone, HoldingChats;
    MonotoneUpdate(r.chats, 0, if 0 in r.chats then r.chats[0] else NewChat);
    for i := 0 to |steps|
      invariant r.Good() && Monotone(old(r.chats), r.chats)
    {
      ghost var before := r.chats;
      TakeStep(r, steps[i]);
      MonotoneTransitive(old(r.chats), before, r.chats);
    }
    WithinSemaphore(r.limits, r.chats, r.permits);
  }
}
