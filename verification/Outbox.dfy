/**
 The email outbox: workers claim one due row at a time with SKIP LOCKED, try to
 send it, and commit the outcome. A failed attempt is retried after an
 exponentially growing delay; the fifth failure is final. A worker may die at any
 point, which only releases its row.
 */
module Outbox {
  import opened Text
  import opened Units

  const MAX_OUTBOX_ATTEMPTS := 5
  const RETRY_BASE_SECONDS := 60
  const BATCH_SIZE := 20
  const REDACTED := "[redacted]"

  type MessageId = nat
  type WorkerId = nat

  datatype Status = Pending | Sent | Failed

  datatype Message = Message(
    payload: map<string, string>, status: Status, sendAfter: Time, attempts: nat, lastError: Option<string>, sentAt: Option<Time>)

  function RetryDelay(attempts: nat): nat {
    RETRY_BASE_SECONDS * Power(attempts) * SECOND
  }

  /** `dict.fromkeys(payload, REDACTED)`. */
  function Redact(payload: map<string, string>): map<string, string> {
    map k | k in payload :: REDACTED
  }

  function SentRow(m: Message, at: Time): Message {
    m.(status := Sent, sentAt := Some(at), payload := Redact(m.payload))
  }

  function FailedRow(m: Message, error: string, nextAttemptAt: Time): Message {
    var counted := m.(attempts := m.attempts + 1, lastError := Some(if |error| <= 1000 then error else error[..1000]));
    if counted.attempts >= MAX_OUTBOX_ATTEMPTS then counted.(status := Failed, payload := Redact(m.payload))
    else counted.(status := Pending, sendAfter := nextAttemptAt)
  }

  predicate Due(m: Message, now: Time) {
    m.status == Pending && m.sendAfter <= now
  }

  // ---- Workers ----------------------------------------------------------------

  /** A claim in progress: the row as it was claimed, and the row to write once the provider has answered. */
  datatype Claim = Claim(id: MessageId, claimedAt: Time, found: Message, outcome: Option<Message>)

  /** `starts[m]` are the claim times of the attempts on m that were committed as failures. */
  datatype World = World(
    messages: map<MessageId, Message>, claims: map<WorkerId, Claim>, now: Time, starts: map<MessageId, seq<Time>>)

  datatype Answer = Delivered | Refused(error: string)

  datatype Event =
    | Enqueue(id: MessageId, payload: map<string, string>)
    | Take(worker: WorkerId, id: MessageId)
    | Send(worker: WorkerId, answer: Answer)
    | Commit(worker: WorkerId)
    | Die(worker: WorkerId)
    | Tick(later: Time)

  predicate Claimed(w: World, id: MessageId) {
    exists x :: x in w.claims && w.claims[x].id == id
  }

  /** A claim takes some due row nobody holds: a racing worker need not get the earliest. */
  predicate Enabled(w: World, e: Event) {
    match e
    case Enqueue(id, _) => id !in w.messages
    case Take(x, id) => x !in w.claims && id in w.messages && Due(w.messages[id], w.now) && !Claimed(w, id)
    case Send(x, _) => x in w.claims && w.claims[x].outcome.None?
    case Commit(x) => x in w.claims && w.claims[x].outcome.Some?
    case Die(x) => x in w.claims
    case Tick(later) => w.now <= later
  }

  function Answered(m: Message, answer: Answer, now: Time): Message {
    match answer
    case Delivered => SentRow(m, now)
    case Refused(error) => FailedRow(m, error, now + RetryDelay(m.attempts))
  }

  function StartsOf(w: World, id: MessageId): seq<Time> {
    if id in w.starts then w.starts[id] else []
  }

  function Step(w: World, e: Event): World
    requires Enabled(w, e)
  {
    match e
    case Enqueue(id, payload) => w.(messages := w.messages[id := Message(payload, Pending, w.now, 0, None, None)])
    case Take(x, id) => w.(claims := w.claims[x := Claim(id, w.now, w.messages[id], None)])
    case Send(x, answer) => w.(claims := w.claims[x := w.claims[x].(outcome := Some(Answered(w.claims[x].found, answer, w.now)))])
    case Commit(x) =>
      var c := w.claims[x];
      w.(messages := w.messages[c.id := c.outcome.value], claims := w.claims - {x},
         starts := if c.outcome.value.status == Sent then w.starts else w.starts[c.id := StartsOf(w, c.id) + [c.claimedAt]])
    case Die(x) => w.(claims := w.claims - {x})
    case Tick(later) => w.(now := later)
  }

  ghost predicate Run(ws: seq<World>, es: seq<Event>) {
    && |ws| == |es| + 1 && ws[0].messages == map[] && ws[0].claims == map[] && ws[0].starts == map[]
    && forall i :: 0 <= i < |es| ==> Enabled(ws[i], es[i]) && ws[i + 1] == Step(ws[i], es[i])
  }

  // ---- The invariant ----------------------------------------------------------

  predicate Redacted(payload: map<string, string>) {
    forall k :: k in payload ==> payload[k] == REDACTED
  }

  /** The delays before attempts 2 to n + 1, added up. */
  function DelaysBefore(n: nat): nat {
    if n == 0 then 0 else DelaysBefore(n - 1) + RetryDelay(n - 1)
  }

  /** A row and the committed attempts on it. */
  ghost predicate MessageOk(m: Message, starts: seq<Time>) {
    && m.attempts == |starts| && m.attempts <= MAX_OUTBOX_ATTEMPTS
    && (m.status == Failed <==> m.attempts == MAX_OUTBOX_ATTEMPTS)
    && (m.status != Pending ==> Redacted(m.payload))
    && (m.status == Pending && starts != [] ==> m.sendAfter >= starts[0] + DelaysBefore(|starts|))
  }

  ghost predicate ClaimOk(w: World, x: WorkerId)
    requires x in w.claims
  {
    var c := w.claims[x];
    && c.id in w.messages && w.messages[c.id] == c.found && Due(c.found, c.claimedAt) && c.claimedAt <= w.now
    && (c.outcome.Some? ==> exists answer, at :: c.claimedAt <= at <= w.now && c.outcome.value == Answered(c.found, answer, at))
  }

  ghost predicate Inv(w: World) {
    && (forall id {:trigger StartsOf(w, id)} :: id in w.messages ==> MessageOk(w.messages[id], StartsOf(w, id)))
    && (forall id :: id in w.starts ==> id in w.messages)
    && (forall x {:trigger ClaimOk(w, x)} :: x in w.claims ==> ClaimOk(w, x))
    && (forall x, y :: x in w.claims && y in w.claims && w.claims[x].id == w.claims[y].id ==> x == y)
  }

  /** The outcome of an attempt on a row in good order is a row in good order. */
  lemma AnsweredOk(m: Message, starts: seq<Time>, answer: Answer, claimedAt: Time, at: Time)
    requires MessageOk(m, starts) && Due(m, claimedAt) && claimedAt <= at
    ensures var after := Answered(m, answer, at);
      && MessageOk(after, if after.status == Sent then starts else starts + [claimedAt])
      && after.payload.Keys == m.payload.Keys && m.attempts <= after.attempts
  {
    var after := Answered(m, answer, at);
    assert DelaysBefore(|starts| + 1) == DelaysBefore(|starts|) + RetryDelay(|starts|);
    if starts == [] {
      assert (starts + [claimedAt])[0] == claimedAt && DelaysBefore(0) == 0;
    } else {
      assert (starts + [claimedAt])[0] == starts[0];
    }
  }

  lemma CommitKeepsInv(w: World, x: WorkerId)
    requires Inv(w) && Enabled(w, Commit(x))
    ensures Inv(Step(w, Commit(x)))
  {
    var c, next := w.claims[x], Step(w, Commit(x));
    assert ClaimOk(w, x);
    var answer, at :| c.claimedAt <= at <= w.now && c.outcome.value == Answered(c.found, answer, at);
    AnsweredOk(c.found, StartsOf(w, c.id), answer, c.claimedAt, at);
    forall id | id in next.messages ensures MessageOk(next.messages[id], StartsOf(next, id)) {
      assert id != c.id ==> StartsOf(next, id) == StartsOf(w, id);
    }
    forall y | y in next.claims ensures ClaimOk(next, y) {
      assert ClaimOk(w, y) && w.claims[y].id != c.id;
    }
  }

  lemma SendKeepsInv(w: World, x: WorkerId, answer: Answer)
    requires Inv(w) && Enabled(w, Send(x, answer))
    ensures Inv(Step(w, Send(x, answer)))
  {
    var next := Step(w, Send(x, answer));
    forall id | id in next.messages ensures MessageOk(next.messages[id], StartsOf(next, id)) {
      assert StartsOf(next, id) == StartsOf(w, id);
    }
    forall y | y in next.claims ensures ClaimOk(next, y) {
      assert ClaimOk(w, y);
      if y == x {
        assert next.claims[x].outcome.value == Answered(next.claims[x].found, answer, w.now);
      }
    }
  }

  lemma StepKeepsInv(w: World, e: Event)
    requires Inv(w) && Enabled(w, e)
    ensures Inv(Step(w, e))
  {
    match e
    case Commit(x) => CommitKeepsInv(w, x);
    case Send(x, answer) => SendKeepsInv(w, x, answer);
    case _ =>
      var next := Step(w, e);
      forall id | id in next.messages ensures MessageOk(next.messages[id], StartsOf(next, id)) {
        assert StartsOf(next, id) == StartsOf(w, id);
      }
      forall y | y in next.claims ensures ClaimOk(next, y) {
        assert y in w.claims ==> ClaimOk(w, y);
      }
  }

  lemma {:induction false} RunInv(ws: seq<World>, es: seq<Event>, i: nat)
    requires Run(ws, es) && i < |ws|
    ensures Inv(ws[i])
  {
    if i > 0 {
      RunInv(ws, es, i - 1);
      StepKeepsInv(ws[i - 1], es[i - 1]);
    }
  }

  // ---- What follows -----------------------------------------------------------

  /** No two workers hold one row. */
  lemma RowsAreHeldOnce(ws: seq<World>, es: seq<Event>, i: nat, x: WorkerId, y: WorkerId)
    requires Run(ws, es) && i < |ws| && x in ws[i].claims && y in ws[i].claims && x != y
    ensures ws[i].claims[x].id != ws[i].claims[y].id
  {
    RunInv(ws, es, i);
  }

  /** Five attempts at most, failed exactly at five, and every terminal row redacted. */
  lemma AttemptsAreBounded(ws: seq<World>, es: seq<Event>, i: nat, id: MessageId)
    requires Run(ws, es) && i < |ws| && id in ws[i].messages
    ensures var m := ws[i].messages[id];
      && m.attempts <= 5 && (m.status == Failed <==> m.attempts == 5) && m.attempts == |StartsOf(ws[i], id)|
      && (m.status != Pending ==> Redacted(m.payload))
  {
    RunInv(ws, es, i);
    assert StartsOf(ws[i], id) == StartsOf(ws[i], id);
  }

  /** How a row may look later: its keys stay, attempts are never uncounted, and a terminal row is frozen. */
  predicate Later(m: Message, after: Message) {
    && after.payload.Keys == m.payload.Keys && m.attempts <= after.attempts
    && (m.status != Pending ==> after == m)
  }

  lemma StepLater(w: World, e: Event, id: MessageId)
    requires Inv(w) && Enabled(w, e) && id in w.messages
    ensures id in Step(w, e).messages && Later(w.messages[id], Step(w, e).messages[id])
  {
    if e.Commit? && w.claims[e.worker].id == id {
      assert ClaimOk(w, e.worker);
    }
  }

  /** Terminal rows never change again, and no row ever loses or gains a payload key. */
  lemma {:induction false} TerminalRowsAreFrozen(ws: seq<World>, es: seq<Event>, i: nat, j: nat, id: MessageId)
    requires Run(ws, es) && i <= j < |ws| && id in ws[i].messages
    ensures id in ws[j].messages && Later(ws[i].messages[id], ws[j].messages[id])
  {
    if i < j {
      TerminalRowsAreFrozen(ws, es, i, j - 1, id);
      RunInv(ws, es, j - 1);
      StepLater(ws[j - 1], es[j - 1], id);
    }
  }

  /** 60 + 120 + 240 + 480 = 900. */
  lemma FourDelays()
    ensures DelaysBefore(4) == 900 * SECOND
  {
    Powers();
    assert DelaysBefore(4) == DelaysBefore(3) + RetryDelay(3);
    assert DelaysBefore(3) == DelaysBefore(2) + RetryDelay(2);
    assert DelaysBefore(2) == DelaysBefore(1) + RetryDelay(1);
    assert DelaysBefore(1) == DelaysBefore(0) + RetryDelay(0);
  }

  /** A fifth attempt starts at least 900 seconds after the first one did. */
  lemma FifthAttemptComesLate(ws: seq<World>, es: seq<Event>, i: nat, id: MessageId)
    requires Run(ws, es) && i < |es| && es[i].Take? && es[i].id == id && id in ws[i].messages && ws[i].messages[id].attempts == 4
    ensures |StartsOf(ws[i], id)| == 4 && ws[i].now >= StartsOf(ws[i], id)[0] + 900 * SECOND
  {
    RunInv(ws, es, i);
    FourDelays();
    assert Enabled(ws[i], es[i]);
    assert MessageOk(ws[i].messages[id], StartsOf(ws[i], id));
  }

  // ---- What an attempt does to its row -----------------------------------------

  /** A delivered row is sent and keeps no value of its payload. */
  predicate DeliveryKept(m: Message, at: Time, after: Message) {
    && after.status == Sent && after.sentAt == Some(at) && after.payload.Keys == m.payload.Keys && Redacted(after.payload)
    && after.sendAfter == m.sendAfter && after.attempts == m.attempts && after.lastError == m.lastError
  }

  /** A refused row counts one attempt more; it waits twice as long as the last time, or has failed for good at the fifth. */
  predicate RefusalKept(m: Message, error: string, at: Time, after: Message) {
    && after.attempts == m.attempts + 1 && after.sentAt == m.sentAt
    && after.lastError == Some(if |error| <= 1000 then error else error[..1000])
    && (after.attempts < 5 ==>
          after.status == Pending && after.payload == m.payload && after.sendAfter == at + 60 * Power(m.attempts) * 1_000_000)
    && (after.attempts >= 5 ==>
          after.status == Failed && after.payload.Keys == m.payload.Keys && Redacted(after.payload) && after.sendAfter == m.sendAfter)
  }

  predicate AttemptKept(m: Message, answer: Answer, at: Time, after: Message) {
    match answer
    case Delivered => DeliveryKept(m, at, after)
    case Refused(error) => RefusalKept(m, error, at, after)
  }

  lemma AnsweredKept(m: Message, answer: Answer, at: Time)
    ensures AttemptKept(m, answer, at, Answered(m, answer, at))
  {
  }

  predicate By(e: Event, x: WorkerId) {
    (e.Take? || e.Send? || e.Commit? || e.Die?) && e.worker == x
  }

  /** At step `n` the provider gave worker `x` this answer, and up to step `m` the worker did nothing more. */
  ghost predicate AnsweredAt(ws: seq<World>, es: seq<Event>, n: nat, m: nat, x: WorkerId, answer: Answer) {
    && n < m <= |es| && es[n] == Send(x, answer) && forall k :: n < k < m ==> !By(es[k], x)
  }

  /** Step `m` commits an attempt on `id` that the provider answered in this way. */
  ghost predicate Commits(ws: seq<World>, es: seq<Event>, m: nat, id: MessageId, answer: Answer) {
    && m < |es| && m < |ws| && es[m].Commit? && es[m].worker in ws[m].claims && ws[m].claims[es[m].worker].id == id
    && exists n :: 0 <= n < m && AnsweredAt(ws, es, n, m, es[m].worker, answer)
  }

  ghost predicate CommitsRefusal(ws: seq<World>, es: seq<Event>, m: nat, id: MessageId) {
    exists error :: Commits(ws, es, m, id, Refused(error))
  }

  /** The row a worker is about to write is what the provider's last answer to it makes of the row it found. */
  lemma {:induction false} ClaimAnswered(ws: seq<World>, es: seq<Event>, i: nat, x: WorkerId) returns (n: nat, answer: Answer)
    requires Run(ws, es) && i < |ws| && x in ws[i].claims && ws[i].claims[x].outcome.Some?
    ensures AnsweredAt(ws, es, n, i, x, answer)
    ensures AttemptKept(ws[i].claims[x].found, answer, ws[n].now, ws[i].claims[x].outcome.value)
  {
    var e := es[i - 1];
    assert Enabled(ws[i - 1], e) && ws[i] == Step(ws[i - 1], e);
    if e.Send? && e.worker == x {
      n, answer := i - 1, e.answer;
      AnsweredKept(ws[i].claims[x].found, answer, ws[n].now);
    } else {
      n, answer := ClaimAnswered(ws, es, i - 1, x);
    }
  }

  lemma OneAnswer(ws: seq<World>, es: seq<Event>, m: nat, x: WorkerId, n: nat, a: Answer, k: nat, b: Answer)
    requires AnsweredAt(ws, es, n, m, x, a) && AnsweredAt(ws, es, k, m, x, b)
    ensures n == k && a == b
  {
    assert By(es[n], x) && By(es[k], x);
  }

  /**
   A commit does to its row what the provider's answer calls for, as of the moment
   it came, and touches no other row.
   */
  lemma CommitRecordsAnswer(ws: seq<World>, es: seq<Event>, m: nat) returns (n: nat, answer: Answer)
    requires Run(ws, es) && m < |es| && es[m].Commit?
    ensures es[m].worker in ws[m].claims && AnsweredAt(ws, es, n, m, es[m].worker, answer)
    ensures var id := ws[m].claims[es[m].worker].id;
      && id in ws[m].messages && ws[m].messages[id].status == Pending && id in ws[m + 1].messages
      && AttemptKept(ws[m].messages[id], answer, ws[n].now, ws[m + 1].messages[id])
      && ws[m + 1].messages == ws[m].messages[id := ws[m + 1].messages[id]]
      && Commits(ws, es, m, id, answer) && (forall a :: Commits(ws, es, m, id, a) ==> a == answer)
  {
    var x := es[m].worker;
    RunInv(ws, es, m);
    assert Enabled(ws[m], es[m]) && ClaimOk(ws[m], x);
    n, answer := ClaimAnswered(ws, es, m, x);
    forall a | Commits(ws, es, m, ws[m].claims[x].id, a) ensures a == answer {
      var k :| 0 <= k < m && AnsweredAt(ws, es, k, m, x, a);
      OneAnswer(ws, es, m, x, n, answer, k, a);
    }
  }

  /** What one step does to one row. */
  ghost predicate RowMoved(ws: seq<World>, es: seq<Event>, n: nat, id: MessageId)
    requires n + 1 < |ws|
  {
    var was, now := ws[n].messages, ws[n + 1].messages;
    && (id in was ==> id in now)
    && (id in now && id !in was ==> now[id].status == Pending && now[id].attempts == 0 && now[id].sendAfter <= ws[n].now)
    && (Commits(ws, es, n, id, Delivered) ==> id in was && now[id].status == Sent && now[id].attempts == was[id].attempts)
    && (CommitsRefusal(ws, es, n, id) ==>
          id in was && was[id].status == Pending && now[id].status != Sent && now[id].attempts == was[id].attempts + 1)
    && (id in was && !Commits(ws, es, n, id, Delivered) && !CommitsRefusal(ws, es, n, id) ==> now[id] == was[id])
    && !(Commits(ws, es, n, id, Delivered) && CommitsRefusal(ws, es, n, id))
  }

  lemma RowMoves(ws: seq<World>, es: seq<Event>, n: nat, id: MessageId)
    requires Run(ws, es) && n < |es|
    ensures RowMoved(ws, es, n, id)
  {
    assert Enabled(ws[n], es[n]) && ws[n + 1] == Step(ws[n], es[n]);
    if es[n].Commit? {
      var k, answer := CommitRecordsAnswer(ws, es, n);
      if ws[n].claims[es[n].worker].id == id && answer.Refused? {
        assert CommitsRefusal(ws, es, n, id);
      }
    }
  }

  /** The steps before `i` that committed a refusal of `id`. */
  ghost function RefusalsOf(ws: seq<World>, es: seq<Event>, i: nat, id: MessageId): set<nat> {
    set m | 0 <= m < i && CommitsRefusal(ws, es, m, id)
  }

  ghost predicate DeliveredBefore(ws: seq<World>, es: seq<Event>, i: nat, id: MessageId) {
    exists m :: 0 <= m < i && Commits(ws, es, m, id, Delivered)
  }

  lemma {:induction false} SentTallied(ws: seq<World>, es: seq<Event>, i: nat, id: MessageId)
    requires i < |ws| && id !in ws[0].messages && forall n: nat :: n < i ==> RowMoved(ws, es, n, id)
    ensures DeliveredBefore(ws, es, i, id) <==> id in ws[i].messages && ws[i].messages[id].status == Sent
  {
    if i > 0 {
      SentTallied(ws, es, i - 1, id);
      assert RowMoved(ws, es, i - 1, id);
      assert DeliveredBefore(ws, es, i, id) <==> DeliveredBefore(ws, es, i - 1, id) || Commits(ws, es, i - 1, id, Delivered);
    }
  }

  lemma {:induction false} AttemptsTallied(ws: seq<World>, es: seq<Event>, i: nat, id: MessageId)
    requires i < |ws| && id !in ws[0].messages && forall n: nat :: n < i ==> RowMoved(ws, es, n, id)
    ensures |RefusalsOf(ws, es, i, id)| == if id in ws[i].messages then ws[i].messages[id].attempts else 0
  {
    if i > 0 {
      AttemptsTallied(ws, es, i - 1, id);
      assert RowMoved(ws, es, i - 1, id);
      RefusalsGrow(ws, es, i - 1, id);
    } else {
      assert RefusalsOf(ws, es, 0, id) == {};
    }
  }

  lemma RefusalsGrow(ws: seq<World>, es: seq<Event>, i: nat, id: MessageId)
    ensures |RefusalsOf(ws, es, i + 1, id)| == |RefusalsOf(ws, es, i, id)| + if CommitsRefusal(ws, es, i, id) then 1 else 0
  {
    var earlier := RefusalsOf(ws, es, i, id);
    assert RefusalsOf(ws, es, i + 1, id) == if CommitsRefusal(ws, es, i, id) then earlier + {i} else earlier;
  }

  /** A mail is marked sent exactly when some attempt on it that the provider delivered has committed; its attempts are the refusals that have. */
  lemma SentMeansDelivered(ws: seq<World>, es: seq<Event>, i: nat, id: MessageId)
    requires Run(ws, es) && i < |ws| && id in ws[i].messages
    ensures ws[i].messages[id].status == Sent <==> exists m :: 0 <= m < i && Commits(ws, es, m, id, Delivered)
    ensures ws[i].messages[id].attempts == |RefusalsOf(ws, es, i, id)|
  {
    forall n: nat | n < i ensures RowMoved(ws, es, n, id) {
      RowMoves(ws, es, n, id);
    }
    SentTallied(ws, es, i, id);
    AttemptsTallied(ws, es, i, id);
  }

  // ---- The entity and the job -------------------------------------------------

  class EmailOutboxMessage {
    const id: MessageId
    var payload: map<string, string>
    var status: Status
    var sendAfter: Time
    var attempts: nat
    var lastError: Option<string>
    var sentAt: Option<Time>

    constructor (id: MessageId, row: Message)
      ensures this.id == id && Row() == row
    {
      this.id, payload, status, sendAfter := id, row.payload, row.status, row.sendAfter;
      attempts, lastError, sentAt := row.attempts, row.lastError, row.sentAt;
    }

    function Row(): Message
      reads this
    {
      Message(payload, status, sendAfter, attempts, lastError, sentAt)
    }

    method RedactPayload()
      modifies this
      ensures Row() == old(Row()).(payload := Redact(old(payload))) && payload.Keys == old(payload.Keys) && Redacted(payload)
    {
      payload := map k | k in payload :: REDACTED;
    }

    method MarkSent(at: Time)
      modifies this
      ensures Row() == SentRow(old(Row()), at) && DeliveryKept(old(Row()), at, Row())
    {
      status := Sent;
      sentAt := Some(at);
      RedactPayload();
    }

    method MarkFailed(error: string, nextAttemptAt: Time)
      modifies this
      ensures Row() == FailedRow(old(Row()), error, nextAttemptAt)
      ensures attempts == old(attempts) + 1 && sentAt == old(sentAt) && lastError == Some(if |error| <= 1000 then error else error[..1000])
      ensures attempts < 5 ==> status == Pending && payload == old(payload) && sendAfter == nextAttemptAt
      ensures attempts >= 5 ==>
        status == Failed && payload.Keys == old(payload.Keys) && Redacted(payload) && sendAfter == old(sendAfter)
    {
      attempts := attempts + 1;
      lastError := Some(if |error| <= 1000 then error else error[..1000]);
      if attempts >= MAX_OUTBOX_ATTEMPTS {
        status := Failed;
        RedactPayload();
      } else {
        status := Pending;
        sendAfter := nextAttemptAt;
      }
    }
  }

  /** The rows after a batch that took the messages of `log` in turn. The i-th pass reads the clock at 2i and 2i + 1. */
  function AfterBatch(rows: map<MessageId, Message>, log: seq<MessageId>, clock: nat -> Time, send: (Message, nat) -> Answer): map<MessageId, Message>
    ensures AfterBatch(rows, log, clock, send).Keys == rows.Keys
  {
    if log == [] then rows
    else
      var n := |log| - 1;
      var before := AfterBatch(rows, log[..n], clock, send);
      if log[n] !in before then before
      else before[log[n] := Answered(before[log[n]], send(before[log[n]], n), clock(2 * n + 1))]
  }

  /** The row `claim_due` picks: due, and with the earliest `send_after` of all that are. */
  predicate Earliest(rows: map<MessageId, Message>, now: Time, id: MessageId) {
    && id in rows && Due(rows[id], now)
    && forall q :: q in rows && Due(rows[q], now) ==> rows[id].sendAfter <= rows[q].sendAfter
  }

  /** Every pass of the batch took the earliest row due at its moment. */
  predicate EarliestFirst(rows: map<MessageId, Message>, log: seq<MessageId>, clock: nat -> Time, send: (Message, nat) -> Answer) {
    log != [] ==>
      var n := |log| - 1;
      EarliestFirst(rows, log[..n], clock, send) && Earliest(AfterBatch(rows, log[..n], clock, send), clock(2 * n), log[n])
  }

  lemma {:induction false} EarliestExists(rows: map<MessageId, Message>, due: set<MessageId>)
    requires due != {} && forall id :: id in due ==> id in rows
    ensures exists id :: id in due && forall q :: q in due ==> rows[id].sendAfter <= rows[q].sendAfter
    decreases |due|
  {
    var x :| x in due;
    var rest := due - {x};
    if rest != {} {
      EarliestExists(rows, rest);
      var y :| y in rest && forall q :: q in rest ==> rows[y].sendAfter <= rows[q].sendAfter;
      var best := if rows[x].sendAfter <= rows[y].sendAfter then x else y;
      assert best in due && forall q :: q in due ==> rows[best].sendAfter <= rows[q].sendAfter;
    } else {
      assert due == {x};
    }
  }

  lemma {:induction false} PrefixFirst(rows: map<MessageId, Message>, log: seq<MessageId>, clock: nat -> Time, send: (Message, nat) -> Answer, n: nat)
    requires EarliestFirst(rows, log, clock, send) && n <= |log|
    ensures EarliestFirst(rows, log[..n], clock, send)
    decreases |log|
  {
    if n < |log| {
      var shorter := log[..|log| - 1];
      PrefixFirst(rows, shorter, clock, send, n);
      assert shorter[..n] == log[..n];
    } else {
      assert log[..n] == log;
    }
  }

  /** One pass: the earliest row due, and what the provider's answer calls for done to it and to no other. */
  predicate PassKept(before: map<MessageId, Message>, after: map<MessageId, Message>, id: MessageId, n: nat, clock: nat -> Time,
                     send: (Message, nat) -> Answer)
  {
    && Earliest(before, clock(2 * n), id) && id in after && after == before[id := after[id]]
    && AttemptKept(before[id], send(before[id], n), clock(2 * n + 1), after[id])
  }

  lemma {:induction false} LastPassKept(rows: map<MessageId, Message>, log: seq<MessageId>, clock: nat -> Time, send: (Message, nat) -> Answer)
    requires log != [] && EarliestFirst(rows, log, clock, send)
    ensures var n := |log| - 1; PassKept(AfterBatch(rows, log[..n], clock, send), AfterBatch(rows, log, clock, send), log[n], n, clock, send)
  {
    var n := |log| - 1;
    var before := AfterBatch(rows, log[..n], clock, send);
    AnsweredKept(before[log[n]], send(before[log[n]], n), clock(2 * n + 1));
  }

  /** Each pass of a batch takes the earliest row due and does to it, and to no other, what the provider's answer calls for. */
  lemma {:induction false} EachPassKept(rows: map<MessageId, Message>, log: seq<MessageId>, clock: nat -> Time, send: (Message, nat) -> Answer, n: nat)
    requires EarliestFirst(rows, log, clock, send) && n < |log|
    ensures PassKept(AfterBatch(rows, log[..n], clock, send), AfterBatch(rows, log[..n + 1], clock, send), log[n], n, clock, send)
  {
    var upTo := log[..n + 1];
    PrefixFirst(rows, log, clock, send, n + 1);
    LastPassKept(rows, upTo, clock, send);
    assert upTo[..|upTo| - 1] == log[..n] && upTo[|upTo| - 1] == log[n];
  }

  lemma AnsweredLater(m: Message, answer: Answer, at: Time)
    requires m.status == Pending
    ensures Later(m, Answered(m, answer, at))
  {
  }

  /** A whole batch leaves terminal rows frozen, keeps every payload's keys and uncounts no attempt. */
  lemma {:induction false} BatchLater(rows: map<MessageId, Message>, log: seq<MessageId>, clock: nat -> Time, send: (Message, nat) -> Answer,
                                      id: MessageId)
    requires EarliestFirst(rows, log, clock, send) && id in rows
    ensures Later(rows[id], AfterBatch(rows, log, clock, send)[id])
  {
    if log != [] {
      var n := |log| - 1;
      BatchLater(rows, log[..n], clock, send, id);
      var before := AfterBatch(rows, log[..n], clock, send);
      AnsweredLater(before[log[n]], send(before[log[n]], n), clock(2 * n + 1));
    }
  }

  /** `now` is what the passes of `log` made of `rows`, each on the earliest row due. */
  ghost predicate Batched(rows: map<MessageId, Message>, now: map<MessageId, Message>, log: seq<MessageId>, clock: nat -> Time,
                          send: (Message, nat) -> Answer)
  {
    EarliestFirst(rows, log, clock, send) && now == AfterBatch(rows, log, clock, send)
  }

  /** One more pass. */
  lemma {:induction false} BatchedOn(rows: map<MessageId, Message>, now: map<MessageId, Message>, log: seq<MessageId>, n: nat, id: MessageId,
                                     clock: nat -> Time, send: (Message, nat) -> Answer)
    requires n == |log| && Batched(rows, now, log, clock, send) && Earliest(now, clock(2 * n), id)
    ensures Batched(rows, now[id := Answered(now[id], send(now[id], n), clock(2 * n + 1))], log + [id], clock, send)
  {
    var more := log + [id];
    assert more[..n] == log && more[n] == id && |more| - 1 == n;
  }

  /** Every pass did to its row what the provider's answer calls for, and over the whole batch no row went back. */
  ghost predicate BatchKept(rows: map<MessageId, Message>, now: map<MessageId, Message>, log: seq<MessageId>, clock: nat -> Time,
                            send: (Message, nat) -> Answer)
  {
    && (forall n {:trigger log[n]} :: 0 <= n < |log| ==>
          PassKept(AfterBatch(rows, log[..n], clock, send), AfterBatch(rows, log[..n + 1], clock, send), log[n], n, clock, send))
    && (forall id :: id in rows ==> id in now && Later(rows[id], now[id]))
  }

  lemma {:induction false} BatchedKept(rows: map<MessageId, Message>, now: map<MessageId, Message>, log: seq<MessageId>, clock: nat -> Time,
                                       send: (Message, nat) -> Answer)
    requires Batched(rows, now, log, clock, send)
    ensures BatchKept(rows, now, log, clock, send)
  {
    forall n | 0 <= n < |log|
      ensures PassKept(AfterBatch(rows, log[..n], clock, send), AfterBatch(rows, log[..n + 1], clock, send), log[n], n, clock, send)
    {
      EachPassKept(rows, log, clock, send, n);
    }
    forall id | id in rows ensures Later(rows[id], now[id]) {
      BatchLater(rows, log, clock, send, id);
    }
  }

  class OutboxTable {
    var rows: map<MessageId, Message>

    constructor (rows: map<MessageId, Message>)
      ensures this.rows == rows
    {
      this.rows := rows;
    }

    method ClaimDue(now: Time) returns (message: EmailOutboxMessage?)
      ensures message == null <==> forall id :: id in rows ==> rows[id].status != Pending || now < rows[id].sendAfter
      ensures message != null ==> fresh(message) && Earliest(rows, now, message.id) && message.Row() == rows[message.id]
    {
      var due := set id | id in rows && Due(rows[id], now);
      assert forall id :: id in rows && Due(rows[id], now) ==> id in due;
      if due == {} {
        return null;
      }
      EarliestExists(rows, due);
      var id :| id in due && forall q :: q in due ==> rows[id].sendAfter <= rows[q].sendAfter;
      message := new EmailOutboxMessage(id, rows[id]);
    }

    method Process(message: EmailOutboxMessage, answer: Answer, at: Time)
      requires message.id in rows && message.Row() == rows[message.id]
      modifies this, message
      ensures rows == old(rows)[message.id := Answered(old(rows)[message.id], answer, at)]
      ensures AttemptKept(old(rows)[message.id], answer, at, rows[message.id])
    {
      AnsweredKept(rows[message.id], answer, at);
      match answer {
        case Delivered => message.MarkSent(at);
        case Refused(error) => message.MarkFailed(error, at + RetryDelay(message.attempts));
      }
      rows := rows[message.id := message.Row()];
    }

    /**
     One run of the job by a worker on its own: at most a batch, stopping early
     only when nothing is due, each pass on the earliest due row.
     */
    method DispatchOutbox(clock: nat -> Time, send: (Message, nat) -> Answer) returns (processed: nat, ghost log: seq<MessageId>)
      modifies this
      ensures processed == |log| <= BATCH_SIZE
      ensures processed < BATCH_SIZE ==> forall id :: id in rows ==> !Due(rows[id], clock(2 * processed))
      ensures Batched(old(rows), rows, log, clock, send) && BatchKept(old(rows), rows, log, clock, send)
    {
      processed, log := 0, [];
      ghost var start := rows;
      for i := 0 to BATCH_SIZE
        invariant processed == i == |log|
        invariant Batched(start, rows, log, clock, send)
      {
        var message := ClaimDue(clock(2 * i));
        if message == null {
          BatchedKept(start, rows, log, clock, send);
          return;
        }
        BatchedOn(start, rows, log, i, message.id, clock, send);
        var answer := send(message.Row(), i);
        Process(message, answer, clock(2 * i + 1));
        log := log + [message.id];
        processed := processed + 1;
      }
      BatchedKept(start, rows, log, clock, send);
    }
  }
}
