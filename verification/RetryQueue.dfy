/** The worker's handling of raw queue messages: parse, check, process, then ack after a success,
    a retry with `attempt + 1`, or a copy in the dead-letter queue (orders-worker.service.ts).

    A handled delivery is one step; the broker's redeliveries are part of `Protocol`. */
module RetryQueue {
  import opened Common
  import opened Binary64

  /** The `attempt` member: any finite number, or something else (absent, a string, 1e999). */
  datatype Attempt = Number(value: real) | NotANumber

  /** Absent or empty ids are None; `raw` is the original body of an unparseable message. */
  datatype Payload = Payload(message: Option<nat>, order: Option<nat>, attempt: Attempt, raw: Option<string>)

  datatype Body = Unparseable(raw: string) | Null | Parsed(payload: Payload)

  /** A message and the label of the original message that it descends from. */
  datatype Envelope = Envelope(origin: nat, body: Body)

  /** `held` are messages whose handler threw before any ack. */
  datatype State = State(
    queue: seq<Envelope>,
    dlq: seq<Envelope>,
    done: seq<Envelope>,
    held: seq<Envelope>,
    handled: seq<nat>)

  const MAX_RETRY_ATTEMPTS := 3

  predicate Malformed(p: Payload) {
    p.message.None? || p.order.None?
  }

  function Started(p: Payload): Payload {
    if p.attempt.NotANumber? then p.(attempt := Number(1.0)) else p
  }

  /** `attempt + 1` in binary64 arithmetic. */
  function Retried(p: Payload): Payload
    requires p.attempt.Number?
  {
    p.(attempt := Number(Fl(p.attempt.value + 1.0)))
  }

  datatype Outcome = Succeeds | Fails

  function Handle(s: State, outcome: Outcome): State {
    if s.queue == [] then s
    else
      var env := s.queue[0];
      var t := s.(queue := s.queue[1..], handled := s.handled + [env.origin]);
      match env.body
      case Unparseable(raw) =>
        t.(dlq := t.dlq + [env.(body := Parsed(Payload(None, None, Number(0.0), Some(raw))))])
      case Null => t.(held := t.held + [env])
      case Parsed(p) =>
        if Malformed(p) then t.(dlq := t.dlq + [env.(body := Parsed(p.(attempt := Number(0.0))))])
        else if outcome == Succeeds then t.(done := t.done + [env.(body := Parsed(Started(p)))])
        else if Started(p).attempt.value < MAX_RETRY_ATTEMPTS as real then
          t.(queue := t.queue + [env.(body := Parsed(Retried(Started(p))))])
        else t.(dlq := t.dlq + [env.(body := Parsed(Started(p)))])
  }

  /** Both ids are there, so the handler comes to processing the order. */
  predicate WellFormed(body: Body) {
    body.Parsed? && body.payload.message.Some? && body.payload.order.Some?
  }

  /** The attempt that the handler goes by: 1 when the message carries no number. */
  function AttemptOf(body: Body): real
    requires body.Parsed?
  {
    if body.payload.attempt.Number? then body.payload.attempt.value else 1.0
  }

  /** Processing succeeds: the message is acked and goes nowhere else. */
  lemma SuccessIsAcked(s: State)
    requires s.queue != [] && WellFormed(s.queue[0].body)
    ensures var x, t := s.queue[0], Handle(s, Succeeds);
            && t.queue == s.queue[1..] && t.dlq == s.dlq && t.held == s.held
            && t.done == s.done + [x.(body := Parsed(x.body.payload.(attempt := Number(AttemptOf(x.body)))))]
  {
  }

  /** Processing fails: the message is queued again behind all others, with the next attempt, as long as
      its attempt is below 3; otherwise it is copied to the dead-letter queue. */
  lemma FailureIsRetried(s: State)
    requires s.queue != [] && WellFormed(s.queue[0].body)
    ensures var x, t := s.queue[0], Handle(s, Fails);
            && t.done == s.done && t.held == s.held
            && if AttemptOf(x.body) < 3.0 then
                 && t.dlq == s.dlq
                 && t.queue == s.queue[1..] +
                      [x.(body := Parsed(x.body.payload.(attempt := Number(Fl(AttemptOf(x.body) + 1.0)))))]
               else
                 && t.queue == s.queue[1..]
                 && t.dlq == s.dlq + [x.(body := Parsed(x.body.payload.(attempt := Number(AttemptOf(x.body)))))]
  {
    hide Fl;
  }

  /** Everything else is never processed, whatever the outcome would have been: bodies that do not parse or
      lack an id go to the dead-letter queue with attempt 0, a `null` body stays unacked. */
  lemma UnusableIsNotProcessed(s: State, outcome: Outcome)
    requires s.queue != [] && !WellFormed(s.queue[0].body)
    ensures var x, t := s.queue[0], Handle(s, outcome);
            && t.queue == s.queue[1..] && t.done == s.done
            && match x.body
               case Null => t.held == s.held + [x] && t.dlq == s.dlq
               case Unparseable(raw) =>
                 t.held == s.held && t.dlq == s.dlq + [x.(body := Parsed(Payload(None, None, Number(0.0), Some(raw))))]
               case Parsed(p) =>
                 t.held == s.held && t.dlq == s.dlq + [x.(body := Parsed(p.(attempt := Number(0.0))))]
  {
  }

  function Run(s: State, outcomes: seq<Outcome>): State
    decreases |outcomes|
  {
    if outcomes == [] then s else Run(Handle(s, outcomes[0]), outcomes[1..])
  }

  // ---- The retry counter

  /** The largest attempt number that `attempt + 1` no longer brings nearer to the limit: -2^53 - 4. */
  const STUCK := -9007199254740996.0
  const EXACT := -9007199254740992.0

  /** The bound is itself a number that a message can carry. */
  lemma StuckIsDouble()
    ensures Double(STUCK)
  {
    assert Times(-(SIGNIFICANDS / 4 + 1), 4.0) == STUCK;
    assert Pow2(2) == 4.0;
    assert IsForm(STUCK, -(SIGNIFICANDS / 4 + 1), 2);
  }

  /** In the binade below -2^53 doubles are the even integers. */
  lemma SpacingTwo(x: real)
    requires -18014398509481984.0 < x <= EXACT
    ensures Ulp(x) == 2.0
  {
    hide Exponent;
    assert Pow2(1) == 2.0 && Pow2(0) == 1.0;
    ExponentIs(x, 1);
  }

  /** Incrementing a stuck attempt never brings it above the bound. */
  lemma StaysStuck(n: real)
    requires n <= STUCK
    ensures Fl(n + 1.0) <= STUCK
  {
    var y := STUCK + 1.0;
    SpacingTwo(y);
    assert RoundEven(y / 2.0) == -4503599627370498;
    assert Fl(y) == STUCK by { hide RoundEven; }
    hide Fl;
    FlMonotone(n + 1.0, y);
  }

  lemma Climbs(n: real)
    requires EXACT <= n < MAX_RETRY_ATTEMPTS as real
    ensures Fl(n + 1.0) >= n + 0.5
  {
    var x := n + 1.0;
    hide Exponent, RoundTo;
    assert Ulp(x) <= 1.0 by {
      assert Abs(x) < SIGNIFICANDS as real * Pow2(0);
      if Exponent(x, MIN_EXPONENT) > 0 {
        Pow2Order(0, Exponent(x, MIN_EXPONENT) - 1);
      }
      Pow2Order(Exponent(x, MIN_EXPONENT), 0);
    }
    RoundToError(x, Ulp(x));
  }

  lemma ClimbsOut(n: real)
    requires STUCK < n < EXACT
    ensures Fl(n + 1.0) >= (if n < STUCK + 2.0 then STUCK + 2.0 else EXACT)
  {
    var x := n + 1.0;
    if x <= EXACT {
      SpacingTwo(x);
      assert RoundEven(x / 2.0) >= if n < STUCK + 2.0 then -4503599627370497 else -4503599627370496;
    } else {
      IntIsDouble(-SIGNIFICANDS);
      hide Fl, Double;
      FlAtLeast(x, EXACT);
    }
  }

  function Distance(n: real): nat {
    if n >= 3.0 then 0
    else if n >= EXACT then (2.0 * (3.0 - n)).Floor + 1
    else if n >= STUCK + 2.0 then (2.0 * (3.0 - EXACT)).Floor + 2
    else (2.0 * (3.0 - EXACT)).Floor + 3
  }

  lemma DistanceShrinks(n: real)
    requires STUCK < n < 3.0
    ensures Distance(Fl(n + 1.0)) < Distance(n) && Fl(n + 1.0) > STUCK
  {
    hide Fl;
    if n >= EXACT {
      Climbs(n);
    } else {
      ClimbsOut(n);
    }
  }

  /** How often a well-formed message with attempt number n is handled when processing always fails. */
  function Remaining(n: real): (k: nat)
    requires n > STUCK
    ensures k >= 1
    decreases Distance(n)
  {
    if n >= MAX_RETRY_ATTEMPTS as real then 1
    else
      DistanceShrinks(n);
      1 + Remaining(Fl(n + 1.0))
  }

  /** A message as the publisher sends it is handled at most MAX_RETRY_ATTEMPTS times. */
  lemma FirstAttemptRemaining()
    ensures Remaining(1.0) == MAX_RETRY_ATTEMPTS
  {
    IntIsDouble(2);
    FlExact(2.0);
    IntIsDouble(3);
    FlExact(3.0);
    hide Fl;
    assert Remaining(3.0) == 1;
    assert Remaining(2.0) == 2;
  }

  // ---- Work that is left

  predicate Settles(body: Body) {
    body.Parsed? && !Malformed(body.payload) && body.payload.attempt.Number? ==> body.payload.attempt.value > STUCK
  }

  predicate AllSettle(queue: seq<Envelope>) {
    forall i :: 0 <= i < |queue| ==> Settles(queue[i].body)
  }

  function Work(body: Body): (k: nat)
    requires Settles(body)
    ensures k >= 1
  {
    if body.Parsed? && !Malformed(body.payload) then Remaining(Started(body.payload).attempt.value) else 1
  }

  predicate OriginSettles(queue: seq<Envelope>, origin: nat) {
    forall i :: 0 <= i < |queue| && queue[i].origin == origin ==> Settles(queue[i].body)
  }

  /** The handlings that the messages of `queue` descending from `origin` can still need. */
  function WorkOf(queue: seq<Envelope>, origin: nat): nat
    requires OriginSettles(queue, origin)
  {
    if queue == [] then 0
    else WorkOf(queue[1..], origin) + if queue[0].origin == origin then Work(queue[0].body) else 0
  }

  function TotalWork(queue: seq<Envelope>): nat
    requires AllSettle(queue)
  {
    if queue == [] then 0 else TotalWork(queue[1..]) + Work(queue[0].body)
  }

  lemma {:induction false} TotalWorkAppend(queue: seq<Envelope>, env: Envelope)
    requires AllSettle(queue) && Settles(env.body)
    ensures AllSettle(queue + [env])
    ensures TotalWork(queue + [env]) == TotalWork(queue) + Work(env.body)
  {
    hide Settles, Work;
    if queue != [] {
      assert (queue + [env])[1..] == queue[1..] + [env];
      TotalWorkAppend(queue[1..], env);
    }
  }

  lemma {:induction false} WorkAppend(queue: seq<Envelope>, env: Envelope, origin: nat)
    requires OriginSettles(queue, origin) && (env.origin == origin ==> Settles(env.body))
    ensures OriginSettles(queue + [env], origin)
    ensures WorkOf(queue + [env], origin) == WorkOf(queue, origin) + if env.origin == origin then Work(env.body) else 0
  {
    hide Settles, Work;
    if queue != [] {
      assert (queue + [env])[1..] == queue[1..] + [env];
      WorkAppend(queue[1..], env, origin);
    }
  }

  lemma RetryCostsOne(body: Body)
    requires Settles(body) && body.Parsed? && !Malformed(body.payload)
    requires Started(body.payload).attempt.value < MAX_RETRY_ATTEMPTS as real
    ensures var again := Parsed(Retried(Started(body.payload)));
            Settles(again) && Work(again) + 1 == Work(body)
  {
    hide Fl, Distance;
    DistanceShrinks(Started(body.payload).attempt.value);
  }

  /** Every handled delivery strictly lowers the work left. */
  lemma HandlingLowersWork(s: State, outcome: Outcome)
    requires AllSettle(s.queue) && s.queue != []
    ensures var t := Handle(s, outcome); AllSettle(t.queue) && TotalWork(t.queue) < TotalWork(s.queue)
  {
    hide Remaining, Work, Settles, Retried;
    var env := s.queue[0];
    var t := Handle(s, outcome);
    assert AllSettle(s.queue[1..]);
    if t.queue != s.queue[1..] {
      RetryCostsOne(env.body);
      TotalWorkAppend(s.queue[1..], env.(body := Parsed(Retried(Started(env.body.payload)))));
    }
  }

  /** It is charged to its original message, whatever the other messages are. */
  lemma HandlingIsCharged(s: State, outcome: Outcome, origin: nat)
    requires OriginSettles(s.queue, origin) && s.queue != []
    ensures var t := Handle(s, outcome);
            && OriginSettles(t.queue, origin)
            && WorkOf(t.queue, origin) + multiset(t.handled)[origin]
               <= WorkOf(s.queue, origin) + multiset(s.handled)[origin]
  {
    hide Remaining, Work, Settles, Retried;
    var env := s.queue[0];
    var t := Handle(s, outcome);
    assert OriginSettles(s.queue[1..], origin);
    if t.queue != s.queue[1..] {
      if env.origin == origin {
        RetryCostsOne(env.body);
      }
      WorkAppend(s.queue[1..], env.(body := Parsed(Retried(Started(env.body.payload)))), origin);
    }
  }

  /** The queue drains, whatever succeeds and whatever fails. */
  lemma {:induction false} Drains(s: State, outcomes: seq<Outcome>)
    requires AllSettle(s.queue) && |outcomes| >= TotalWork(s.queue)
    ensures Run(s, outcomes).queue == []
    decreases |outcomes|
  {
    hide Handle, Settles, Work;
    if s.queue == [] {
      EmptyStays(s, outcomes);
    } else {
      assert TotalWork(s.queue) > 0;
      HandlingLowersWork(s, outcomes[0]);
      Drains(Handle(s, outcomes[0]), outcomes[1..]);
    }
  }

  /** No original message is handled more often than its attempt number allows. */
  lemma {:induction false} HandledWithinWork(s: State, outcomes: seq<Outcome>, origin: nat)
    requires OriginSettles(s.queue, origin)
    ensures multiset(Run(s, outcomes).handled)[origin] <= multiset(s.handled)[origin] + WorkOf(s.queue, origin)
    decreases |outcomes|
  {
    hide Handle, OriginSettles, WorkOf;
    if s.queue == [] {
      EmptyStays(s, outcomes);
    } else if outcomes != [] {
      HandlingIsCharged(s, outcomes[0], origin);
      HandledWithinWork(Handle(s, outcomes[0]), outcomes[1..], origin);
    }
  }

  lemma {:induction false} EmptyStays(s: State, outcomes: seq<Outcome>)
    requires s.queue == []
    ensures Run(s, outcomes) == s
    decreases |outcomes|
  {
    if outcomes != [] {
      EmptyStays(s, outcomes[1..]);
    }
  }

  /** What the publisher of a new order enqueues. */
  function Fresh(origin: nat, order: nat): Envelope {
    Envelope(origin, Parsed(Payload(Some(origin), Some(order), Number(1.0), None)))
  }

  predicate Distinct(queue: seq<Envelope>) {
    forall i, j :: 0 <= i < j < |queue| ==> queue[i].origin != queue[j].origin
  }

  lemma {:induction false} NoWork(queue: seq<Envelope>, origin: nat)
    requires forall i :: 0 <= i < |queue| ==> queue[i].origin != origin
    ensures OriginSettles(queue, origin) && WorkOf(queue, origin) == 0
  {
    hide Settles, Work;
    if queue != [] {
      NoWork(queue[1..], origin);
    }
  }

  lemma {:induction false} WorkOfOne(queue: seq<Envelope>, i: nat)
    requires Distinct(queue) && i < |queue| && Settles(queue[i].body)
    ensures OriginSettles(queue, queue[i].origin) && WorkOf(queue, queue[i].origin) == Work(queue[i].body)
  {
    hide Settles, Work;
    if i == 0 {
      NoWork(queue[1..], queue[0].origin);
    } else {
      assert queue[1..][i - 1] == queue[i];
      WorkOfOne(queue[1..], i - 1);
      assert forall j :: 0 <= j < |queue[1..]| ==> queue[j + 1] == queue[1..][j];
    }
  }

  /** In every queue, whatever the other messages are and whatever succeeds or fails. */
  lemma FreshHandledAtMostThrice(queue: seq<Envelope>, outcomes: seq<Outcome>, i: nat, order: nat)
    requires Distinct(queue) && i < |queue| && queue[i] == Fresh(queue[i].origin, order)
    ensures multiset(Run(State(queue, [], [], [], []), outcomes).handled)[queue[i].origin] <= MAX_RETRY_ATTEMPTS
  {
    hide Remaining, Run, WorkOf, OriginSettles;
    FirstAttemptRemaining();
    WorkOfOne(queue, i);
    HandledWithinWork(State(queue, [], [], [], []), outcomes, queue[i].origin);
  }

  // ---- Messages that settle, and messages that never do

  function AllFail(k: nat): seq<Outcome> {
    seq(k, _ => Fails)
  }

  predicate InQueue(queue: seq<Envelope>, origin: nat) {
    exists i :: 0 <= i < |queue| && queue[i].origin == origin
  }

  /** Handling moves the first message to the end of one of the four places. */
  lemma HandleMoves(s: State, outcome: Outcome) returns (x: Envelope)
    requires s.queue != []
    ensures x.origin == s.queue[0].origin
    ensures var t := Handle(s, outcome).(handled := s.handled);
            || t == s.(queue := s.queue[1..] + [x])
            || t == s.(queue := s.queue[1..], dlq := s.dlq + [x])
            || t == s.(queue := s.queue[1..], done := s.done + [x])
            || t == s.(queue := s.queue[1..], held := s.held + [x])
  {
    hide Retried;
    var env := s.queue[0];
    match env.body
    case Unparseable(raw) =>
      x := env.(body := Parsed(Payload(None, None, Number(0.0), Some(raw))));
    case Null => x := env;
    case Parsed(p) =>
      x := if Malformed(p) then env.(body := Parsed(p.(attempt := Number(0.0))))
           else if outcome == Fails && Started(p).attempt.value < MAX_RETRY_ATTEMPTS as real
           then env.(body := Parsed(Retried(Started(p))))
           else env.(body := Parsed(Started(p)));
  }

  lemma AllFailStep(s: State, k: nat)
    requires k > 0
    ensures Run(s, AllFail(k)) == Run(Handle(s, Fails), AllFail(k - 1))
  {
    hide Handle;
    assert AllFail(k)[0] == Fails && AllFail(k)[1..] == AllFail(k - 1);
  }

  lemma NothingHandled(s: State)
    ensures Run(s, AllFail(0)) == s
  {
    assert AllFail(0) == [];
  }

  /** The messages behind the first one move up by one place. */
  lemma MovesUp(s: State, outcome: Outcome, i: nat)
    requires 0 < i < |s.queue|
    ensures var t := Handle(s, outcome); i <= |t.queue| && t.queue[i - 1] == s.queue[i]
  {
    var x := HandleMoves(s, outcome);
    hide Handle;
  }

  /** A stuck message that fails is queued again, and is still stuck. */
  lemma StuckFails(s: State)
    requires s.queue != [] && !Settles(s.queue[0].body)
    ensures var t := Handle(s, Fails);
            && t.queue != [] && t.queue[|t.queue| - 1].origin == s.queue[0].origin
            && !Settles(t.queue[|t.queue| - 1].body)
  {
    hide Fl;
    StaysStuck(s.queue[0].body.payload.attempt.value);
  }

  /** A stuck message stays in the queue, wherever it stands. */
  lemma {:induction false} RetriedForever(s: State, i: nat, k: nat)
    requires i < |s.queue| && !Settles(s.queue[i].body)
    ensures InQueue(Run(s, AllFail(k)).queue, s.queue[i].origin)
    decreases k
  {
    hide Run, Handle, Settles;
    if k == 0 {
      NothingHandled(s);
    } else {
      AllFailStep(s, k);
      if i == 0 {
        StuckFails(s);
        RetriedForever(Handle(s, Fails), |Handle(s, Fails).queue| - 1, k - 1);
      } else {
        MovesUp(s, Fails, i);
        RetriedForever(Handle(s, Fails), i - 1, k - 1);
      }
    }
  }

  lemma HandleKeepsDistinct(s: State, outcome: Outcome)
    requires Distinct(s.queue) && s.queue != []
    ensures Distinct(Handle(s, outcome).queue)
  {
    var x := HandleMoves(s, outcome);
    hide Handle;
  }

  /** When the first message is handled and fails, it leaves the queue or needs one handling less. */
  lemma FirstFails(s: State)
    requires Distinct(s.queue) && s.queue != [] && Settles(s.queue[0].body)
    ensures var t := Handle(s, Fails);
            || !InQueue(t.queue, s.queue[0].origin)
            || (t.queue != [] && t.queue[|t.queue| - 1].origin == s.queue[0].origin
                && Settles(t.queue[|t.queue| - 1].body) && Work(t.queue[|t.queue| - 1].body) < Work(s.queue[0].body))
  {
    hide Remaining, Work, Settles, Retried;
    if Handle(s, Fails).queue != s.queue[1..] {
      RetryCostsOne(s.queue[0].body);
    }
  }

  /** A message that settles leaves the queue, wherever it stands and whatever else is queued. */
  lemma {:induction false} Leaves(s: State, i: nat) returns (k: nat)
    requires Distinct(s.queue) && i < |s.queue| && Settles(s.queue[i].body)
    ensures !InQueue(Run(s, AllFail(k)).queue, s.queue[i].origin)
    decreases Work(s.queue[i].body), i
  {
    hide Run, Handle, Work, Settles, InQueue, Distinct;
    var t := Handle(s, Fails);
    HandleKeepsDistinct(s, Fails);
    if i > 0 {
      MovesUp(s, Fails, i);
      k := Leaves(t, i - 1);
    } else {
      FirstFails(s);
      if InQueue(t.queue, s.queue[0].origin) {
        k := Leaves(t, |t.queue| - 1);
      } else {
        k := 0;
        NothingHandled(t);
      }
    }
    k := k + 1;
    AllFailStep(s, k);
  }

  /** In every queue: a message whose processing keeps failing leaves the queue after finitely many
      handlings exactly when it is malformed or its attempt number is above -2^53 - 4. */
  lemma SettlesIff(s: State, i: nat)
    requires Distinct(s.queue) && i < |s.queue|
    ensures Settles(s.queue[i].body) <==> exists k: nat :: !InQueue(Run(s, AllFail(k)).queue, s.queue[i].origin)
  {
    hide Run, InQueue, Settles, Distinct;
    if Settles(s.queue[i].body) {
      var k := Leaves(s, i);
    } else {
      forall k: nat ensures InQueue(Run(s, AllFail(k)).queue, s.queue[i].origin) {
        RetriedForever(s, i, k);
      }
    }
  }

  /** A message with the largest stuck attempt number, which is a number that JSON can carry. */
  lemma StuckMessage(origin: nat, order: nat, k: nat)
    ensures Double(STUCK)
    ensures var message := Envelope(origin, Parsed(Payload(Some(origin), Some(order), Number(STUCK), None)));
            InQueue(Run(State([message], [], [], [], []), AllFail(k)).queue, origin)
  {
    hide Run, InQueue;
    StuckIsDouble();
    var message := Envelope(origin, Parsed(Payload(Some(origin), Some(order), Number(STUCK), None)));
    RetriedForever(State([message], [], [], [], []), 0, k);
  }

  // ---- Conservation

  /** The messages of a place that descend from `origin`. */
  function Copies(envs: seq<Envelope>, origin: nat): nat {
    if envs == [] then 0
    else Copies(envs[..|envs| - 1], origin) + if envs[|envs| - 1].origin == origin then 1 else 0
  }

  lemma CopiesSnoc(envs: seq<Envelope>, env: Envelope, origin: nat)
    ensures Copies(envs + [env], origin) == Copies(envs, origin) + if env.origin == origin then 1 else 0
  {
    assert (envs + [env])[..|envs|] == envs;
  }

  lemma {:induction false} CopiesHead(envs: seq<Envelope>, origin: nat)
    requires envs != []
    ensures Copies(envs, origin) == Copies(envs[1..], origin) + if envs[0].origin == origin then 1 else 0
  {
    var front := envs[..|envs| - 1];
    if front != [] {
      CopiesHead(front, origin);
      assert envs[1..] == front[1..] + [envs[|envs| - 1]];
      CopiesSnoc(front[1..], envs[|envs| - 1], origin);
    }
  }

  /** Over every place that a message can be in. */
  function Everywhere(s: State, origin: nat): nat {
    Copies(s.queue, origin) + Copies(s.dlq, origin) + Copies(s.done, origin) + Copies(s.held, origin)
  }

  lemma HandleConserves(s: State, outcome: Outcome, origin: nat)
    ensures Everywhere(Handle(s, outcome), origin) == Everywhere(s, origin)
  {
    if s.queue != [] {
      CopiesHead(s.queue, origin);
      hide Copies, Retried;
      var x := HandleMoves(s, outcome);
      CopiesSnoc(s.queue[1..], x, origin);
      CopiesSnoc(s.dlq, x, origin);
      CopiesSnoc(s.done, x, origin);
      CopiesSnoc(s.held, x, origin);
      hide Handle;
    }
  }

  lemma {:induction false} RunConserves(s: State, outcomes: seq<Outcome>, origin: nat)
    ensures Everywhere(Run(s, outcomes), origin) == Everywhere(s, origin)
    decreases |outcomes|
  {
    hide Handle, Everywhere;
    if outcomes != [] {
      HandleConserves(s, outcomes[0], origin);
      RunConserves(Handle(s, outcomes[0]), outcomes[1..], origin);
    }
  }

  lemma {:induction false} NoCopies(queue: seq<Envelope>, origin: nat)
    requires forall i :: 0 <= i < |queue| ==> queue[i].origin != origin
    ensures Copies(queue, origin) == 0
  {
    if queue != [] {
      NoCopies(queue[..|queue| - 1], origin);
    }
  }

  lemma {:induction false} OneCopy(queue: seq<Envelope>, i: nat)
    requires Distinct(queue) && i < |queue|
    ensures Copies(queue, queue[i].origin) == 1
  {
    var front := queue[..|queue| - 1];
    if i < |front| {
      assert front[i] == queue[i];
      OneCopy(front, i);
    } else {
      NoCopies(front, queue[i].origin);
    }
  }

  /** Once the queue has drained, each original message is in exactly one place: acked as a
      success, in the dead-letter queue, or (for a `null` body only) held unacked. */
  lemma ExactlyOneFate(queue: seq<Envelope>, outcomes: seq<Outcome>, i: nat)
    requires Distinct(queue) && AllSettle(queue) && i < |queue|
    requires |outcomes| >= TotalWork(queue)
    ensures var t := Run(State(queue, [], [], [], []), outcomes);
            && t.queue == []
            && Copies(t.dlq, queue[i].origin) + Copies(t.done, queue[i].origin) + Copies(t.held, queue[i].origin) == 1
  {
    hide Run, TotalWork;
    var s := State(queue, [], [], [], []);
    Drains(s, outcomes);
    RunConserves(s, outcomes, queue[i].origin);
    OneCopy(queue, i);
  }

  /** What a message in a final place can look like. */
  predicate FatesOk(s: State) {
    && (forall i :: 0 <= i < |s.done| ==> s.done[i].body.Parsed? && !Malformed(s.done[i].body.payload))
    && (forall i :: 0 <= i < |s.held| ==> s.held[i].body.Null?)
    && (forall i :: 0 <= i < |s.dlq| ==>
          && s.dlq[i].body.Parsed? && s.dlq[i].body.payload.attempt.Number?
          && (Malformed(s.dlq[i].body.payload) ==> s.dlq[i].body.payload.attempt.value == 0.0)
          && (!Malformed(s.dlq[i].body.payload) ==> s.dlq[i].body.payload.attempt.value >= MAX_RETRY_ATTEMPTS as real))
  }

  /** Only well-formed messages succeed, only `null` is held, and the dead-letter queue has
      malformed messages with attempt 0 and well-formed ones whose attempts are used up. */
  lemma {:induction false} RunKeepsFates(s: State, outcomes: seq<Outcome>)
    requires FatesOk(s)
    ensures FatesOk(Run(s, outcomes))
    decreases |outcomes|
  {
    if outcomes != [] {
      assert FatesOk(Handle(s, outcomes[0])) by { hide Retried, Run; }
      hide FatesOk, Handle;
      RunKeepsFates(Handle(s, outcomes[0]), outcomes[1..]);
    }
  }

  // ---- Success or dead letter

  /** One of the handlings of the message during the run succeeds. */
  predicate SomeSuccess(s: State, outcomes: seq<Outcome>, origin: nat)
    decreases |outcomes|
  {
    && outcomes != [] && s.queue != []
    && ((s.queue[0].origin == origin && outcomes[0] == Succeeds)
        || SomeSuccess(Handle(s, outcomes[0]), outcomes[1..], origin))
  }

  lemma {:induction false} CopiesPositive(envs: seq<Envelope>, i: nat)
    requires i < |envs|
    ensures Copies(envs, envs[i].origin) > 0
  {
    if i < |envs| - 1 {
      CopiesPositive(envs[..|envs| - 1], i);
    }
  }

  lemma GoneStep(s: State, outcome: Outcome, origin: nat)
    requires s.queue != [] && !InQueue(s.queue, origin)
    ensures var t := Handle(s, outcome);
            && !InQueue(t.queue, origin)
            && Copies(t.done, origin) == Copies(s.done, origin) && Copies(t.dlq, origin) == Copies(s.dlq, origin)
  {
    hide Copies, Retried;
    var x := HandleMoves(s, outcome);
    CopiesSnoc(s.done, x, origin);
    CopiesSnoc(s.dlq, x, origin);
    hide Handle;
  }

  /** A message that has left the queue is not handled any more. */
  lemma {:induction false} GoneStays(s: State, outcomes: seq<Outcome>, origin: nat)
    requires !InQueue(s.queue, origin)
    ensures var t := Run(s, outcomes);
            && !InQueue(t.queue, origin) && !SomeSuccess(s, outcomes, origin)
            && Copies(t.done, origin) == Copies(s.done, origin) && Copies(t.dlq, origin) == Copies(s.dlq, origin)
    decreases |outcomes|
  {
    hide Handle, Copies;
    if s.queue == [] {
      EmptyStays(s, outcomes);
    } else if outcomes != [] {
      GoneStep(s, outcomes[0], origin);
      assert s.queue[0].origin != origin;
      hide InQueue;
      GoneStays(Handle(s, outcomes[0]), outcomes[1..], origin);
    }
  }

  /** The first of two places holds the message, once, and the second does not. */
  predicate Only(here: seq<Envelope>, before: seq<Envelope>, there: seq<Envelope>, was: seq<Envelope>, origin: nat) {
    Copies(here, origin) == Copies(before, origin) + 1 && Copies(there, origin) == Copies(was, origin)
  }

  /** What handling the message itself, at the head, does. */
  lemma HeadFate(s: State, outcome: Outcome)
    requires Distinct(s.queue) && s.queue != [] && WellFormed(s.queue[0].body)
    ensures var t, origin := Handle(s, outcome), s.queue[0].origin;
            && (outcome == Succeeds ==> !InQueue(t.queue, origin) && Only(t.done, s.done, t.dlq, s.dlq, origin))
            && (outcome == Fails && !InQueue(t.queue, origin) ==> Only(t.dlq, s.dlq, t.done, s.done, origin))
            && (outcome == Fails && InQueue(t.queue, origin) ==>
                  && t.done == s.done && t.dlq == s.dlq && t.queue != []
                  && t.queue[|t.queue| - 1].origin == origin && WellFormed(t.queue[|t.queue| - 1].body))
  {
    hide Copies, Fl;
    var origin := s.queue[0].origin;
    if outcome == Succeeds {
      SuccessIsAcked(s);
      CopiesSnoc(s.done, Handle(s, outcome).done[|s.done|], origin);
    } else {
      FailureIsRetried(s);
      if AttemptOf(s.queue[0].body) < 3.0 {
        assert Handle(s, outcome).queue[|s.queue| - 1].origin == origin;
      } else {
        CopiesSnoc(s.dlq, Handle(s, outcome).dlq[|s.dlq|], origin);
      }
    }
    hide Handle;
  }

  lemma OthersFate(s: State, outcome: Outcome, origin: nat)
    requires s.queue != [] && s.queue[0].origin != origin
    ensures var t := Handle(s, outcome);
            Copies(t.done, origin) == Copies(s.done, origin) && Copies(t.dlq, origin) == Copies(s.dlq, origin)
  {
    hide Copies, Retried;
    var x := HandleMoves(s, outcome);
    CopiesSnoc(s.done, x, origin);
    CopiesSnoc(s.dlq, x, origin);
    hide Handle;
  }

  lemma {:induction false} FateFrom(s: State, outcomes: seq<Outcome>, i: nat)
    requires Distinct(s.queue) && i < |s.queue| && WellFormed(s.queue[i].body)
    ensures var t, origin := Run(s, outcomes), s.queue[i].origin;
            if InQueue(t.queue, origin) then
              && !SomeSuccess(s, outcomes, origin)
              && Copies(t.done, origin) == Copies(s.done, origin) && Copies(t.dlq, origin) == Copies(s.dlq, origin)
            else if SomeSuccess(s, outcomes, origin) then Only(t.done, s.done, t.dlq, s.dlq, origin)
            else Only(t.dlq, s.dlq, t.done, s.done, origin)
    decreases |outcomes|
  {
    hide Handle, Copies, WellFormed, Distinct;
    var origin := s.queue[i].origin;
    if outcomes == [] {
      assert InQueue(s.queue, origin);
    } else {
      var t := Handle(s, outcomes[0]);
      HandleKeepsDistinct(s, outcomes[0]);
      hide InQueue;
      if i > 0 {
        MovesUp(s, outcomes[0], i);
        DistinctHead(s.queue, i);
        OthersFate(s, outcomes[0], origin);
        FateFrom(t, outcomes[1..], i - 1);
      } else {
        HeadFate(s, outcomes[0]);
        if InQueue(t.queue, origin) {
          FateFrom(t, outcomes[1..], |t.queue| - 1);
        } else {
          GoneStays(t, outcomes[1..], origin);
        }
      }
    }
  }

  lemma DistinctHead(queue: seq<Envelope>, i: nat)
    requires Distinct(queue) && 0 < i < |queue|
    ensures queue[0].origin != queue[i].origin
  {
  }

  /** In every queue and under any outcomes: a well-formed message that has left the queue was acked as a
      success exactly when one of its handlings succeeded, and is in the dead-letter queue exactly when
      all of them failed. */
  lemma SuccessOrDeadLetter(queue: seq<Envelope>, outcomes: seq<Outcome>, i: nat)
    requires Distinct(queue) && i < |queue| && WellFormed(queue[i].body)
    requires !InQueue(Run(State(queue, [], [], [], []), outcomes).queue, queue[i].origin)
    ensures var s := State(queue, [], [], [], []);
            var t, succeeded := Run(s, outcomes), SomeSuccess(s, outcomes, queue[i].origin);
            && Copies(t.done, queue[i].origin) == (if succeeded then 1 else 0)
            && Copies(t.dlq, queue[i].origin) == (if succeeded then 0 else 1)
  {
    hide Run, SomeSuccess;
    FateFrom(State(queue, [], [], [], []), outcomes, i);
  }

  // ---- The worker

  class OrderWorker {
    var queue: seq<Envelope>
    var dlq: seq<Envelope>
    var done: seq<Envelope>
    var held: seq<Envelope>
    ghost var handled: seq<nat>

    ghost function Now(): State
      reads this
    {
      State(queue, dlq, done, held, handled)
    }

    constructor (queue: seq<Envelope>)
      ensures Now() == State(queue, [], [], [], [])
    {
      this.queue, dlq, done, held, handled := queue, [], [], [], [];
    }

    method PublishToDlq(origin: nat, payload: Payload)
      modifies this`dlq
      ensures dlq == old(dlq) + [Envelope(origin, Parsed(payload))]
    {
      dlq := dlq + [Envelope(origin, Parsed(payload))];
    }

    method RetryMessage(origin: nat, payload: Payload)
      requires payload.attempt.Number?
      modifies this`queue
      ensures queue == old(queue) + [Envelope(origin, Parsed(Retried(payload)))]
    {
      var retryPayload := payload.(attempt := Number(Fl(payload.attempt.value + 1.0)));
      queue := queue + [Envelope(origin, Parsed(retryPayload))];
    }

    /** Takes the next delivery; `outcome` is what `processOrderMessage` will do if it is called. */
    method HandleMessage(outcome: Outcome)
      requires queue != []
      modifies this
      ensures Now() == Handle(old(Now()), outcome)
      ensures WellFormed(old(queue)[0].body) && outcome == Succeeds ==>
                && queue == old(queue)[1..] && dlq == old(dlq) && held == old(held)
                && |done| == |old(done)| + 1 && old(done) <= done && done[|old(done)|].origin == old(queue)[0].origin
      ensures WellFormed(old(queue)[0].body) && outcome == Fails ==> done == old(done) && held == old(held)
    {
      var msg := queue[0];
      queue := queue[1..];
      handled := handled + [msg.origin];
      if msg.body.Null? {
        held := held + [msg];
        return;
      }
      if msg.body.Unparseable? {
        PublishToDlq(msg.origin, Payload(None, None, Number(0.0), Some(msg.body.raw)));
        return;
      }
      var payload := msg.body.payload;
      if payload.message.None? || payload.order.None? {
        PublishToDlq(msg.origin, payload.(attempt := Number(0.0)));
        return;
      }
      if payload.attempt.NotANumber? {
        payload := payload.(attempt := Number(1.0));
      }
      if outcome == Succeeds {
        done := done + [Envelope(msg.origin, Parsed(payload))];
        return;
      }
      if payload.attempt.value < MAX_RETRY_ATTEMPTS as real {
        RetryMessage(msg.origin, payload);
        return;
      }
      PublishToDlq(msg.origin, payload);
    }
  }
}
