/**
 Idempotent requests: the record rows of repository/idempotency.go and the middleware of
 middleware/idempotency.go that decides who runs the handler, who replays and who aborts.
 */
module Idempotency {
  import opened Basics

  // ---- responses

  /** A response body as JSON sees it: an object, the literal null, or anything else. */
  datatype Body = Object(fields: map<string, string>) | Null | Other(text: string)

  /** What the handler wrote; status 0 when it wrote nothing, `oneTime` when it marked an invitation link. */
  datatype Response = Response(status: nat, body: Body, contentType: string, oneTime: bool)

  datatype Stored = Stored(status: nat, body: Body, contentType: string)

  const URL_FIELD := "manual_acceptance_url"

  function StatusOf(r: Response): nat {
    if r.status == 0 then 200 else r.status
  }

  predicate Fails(r: Response) {
    StatusOf(r) >= 500
  }

  /** Drops the acceptance link; a body that is not an object or null becomes the empty object. */
  function Redact(body: Body): Body {
    match body
    case Object(fields) => Object(fields - {URL_FIELD})
    case Null => Null
    case Other(_) => Object(map[])
  }

  function ToStore(r: Response): Stored {
    Stored(StatusOf(r), if r.oneTime then Redact(r.body) else r.body,
           if r.contentType == "" then "application/octet-stream" else r.contentType)
  }

  /** All of the object but the link is kept. */
  predicate OnlyLinkDropped(before: Body, after: Body) {
    before.Object? ==>
      && after.Object? && after.fields.Keys == before.fields.Keys - {URL_FIELD}
      && forall f | f in after.fields :: after.fields[f] == before.fields[f]
  }

  /** A stored one-time response never holds the link, loses no other field, and storing it again changes nothing. */
  lemma {:induction false} StoredHoldsNoLink(r: Response)
    requires r.oneTime
    ensures var body := ToStore(r).body;
            && !body.Other? && (body.Object? ==> URL_FIELD !in body.fields)
            && OnlyLinkDropped(r.body, body) && Redact(body) == body
            && (r.body.Null? <==> body == Null) && (r.body.Other? ==> body == Object(map[]))
  {
  }

  // ---- records

  type Key = (nat, string)

  /** What must match for a reuse of the key to count as the same request. */
  datatype Request = Request(verb: string, path: string, bodyHash: string)

  datatype Progress = Processing | Completed(response: Stored)

  datatype Record = Record(request: Request, progress: Progress)

  datatype Reply = Replayed(response: Stored) | KeyConflict | InProgress | Unavailable | Ran(answer: Response)

  /** What StartIdempotentRequest makes of a record that was already there. */
  function Judge(record: Record, request: Request): Reply {
    if record.request != request then KeyConflict
    else if record.progress.Completed? then Replayed(record.progress.response)
    else InProgress
  }

  /** What the middleware leaves of the record once the handler has answered. */
  function Settled(records: map<Key, Record>, k: Key, answer: Response): map<Key, Record> {
    if k !in records then records
    else if Fails(answer) then (if records[k].progress.Processing? then records - {k} else records)
    else records[k := records[k].(progress := Completed(ToStore(answer)))]
  }

  class ReliabilityRepository {
    var records: map<Key, Record>

    constructor ()
      ensures records == map[]
    {
      records := map[];
    }

    /** None tells the caller to run the handler. */
    method StartIdempotentRequest(k: Key, request: Request) returns (reply: Option<Reply>)
      modifies this
      ensures k !in old(records) ==> reply.None? && records == old(records)[k := Record(request, Processing)]
      ensures k in old(records) ==> reply == Some(Judge(old(records)[k], request)) && records == old(records)
      ensures k in old(records) ==>
        var record := old(records)[k];
        if && record.request.verb == request.verb && record.request.path == request.path
           && record.request.bodyHash == request.bodyHash
        then reply == match record.progress
                      case Completed(response) => Some(Replayed(response))
                      case Processing => Some(InProgress)
        else reply == Some(KeyConflict)
    {
      if k !in records {
        records := records[k := Record(request, Processing)];
        return None;
      }
      var record := records[k];
      if record.request.verb != request.verb || record.request.path != request.path
         || record.request.bodyHash != request.bodyHash {
        return Some(KeyConflict);
      }
      if !record.progress.Completed? {
        return Some(InProgress);
      }
      return Some(Replayed(record.progress.response));
    }

    method CompleteIdempotentRequest(k: Key, response: Stored)
      modifies this
      ensures records == if k in old(records)
              then old(records)[k := old(records)[k].(progress := Completed(response))] else old(records)
    {
      if k in records {
        records := records[k := records[k].(progress := Completed(response))];
      }
    }

    method AbortIdempotentRequest(k: Key)
      modifies this
      ensures records == if k in old(records) && old(records)[k].progress.Processing? then old(records) - {k}
              else old(records)
    {
      if k in records && records[k].progress.Processing? {
        records := records - {k};
      }
    }

    /**
     One request served with nothing in between; `answer` is what the handler writes if it runs.
     It runs exactly when the key has no record, and a run below status 500 is what every later
     request with the key is judged by.
     */
    method Serve(k: Key, request: Request, answer: Response) returns (reply: Reply)
      modifies this
      ensures reply.Ran? <==> k !in old(records)
      ensures reply.Ran? ==> reply.answer == answer
      ensures !reply.Ran? ==> reply == Judge(old(records)[k], request) && records == old(records)
      ensures reply.Ran? && Fails(answer) ==> records == old(records)
      ensures reply.Ran? && !Fails(answer) ==> records == old(records)[k := Record(request, Completed(ToStore(answer)))]
      ensures reply.Ran? && answer.status >= 500 ==> records == old(records)
      ensures reply.Ran? && answer.status < 500 ==>
        && k in records && records[k].request == request && records[k].progress.Completed?
        && (forall other | other != k ::
              (other in records <==> other in old(records))
              && (other in records ==> records[other] == old(records)[other]))
        && var stored := records[k].progress.response;
        && stored.status == (if answer.status == 0 then 200 else answer.status)
        && stored.contentType
           == (if answer.contentType == "" then "application/octet-stream" else answer.contentType)
        && (!answer.oneTime ==> stored.body == answer.body)
        && (answer.oneTime ==>
              && (answer.body.Object? ==> stored.body == Object(answer.body.fields - {"manual_acceptance_url"}))
              && (answer.body.Null? ==> stored.body == Null) && (answer.body.Other? ==> stored.body == Object(map[])))
      ensures !reply.Ran? ==>
        var record := old(records)[k];
        if && record.request.verb == request.verb && record.request.path == request.path
           && record.request.bodyHash == request.bodyHash
        then reply == match record.progress
                      case Completed(response) => Replayed(response)
                      case Processing => InProgress
        else reply == KeyConflict
    {
      var started := StartIdempotentRequest(k, request);
      if started.Some? {
        return started.value;
      }
      if StatusOf(answer) >= 500 {
        AbortIdempotentRequest(k);
      } else {
        var contentType := if answer.contentType == "" then "application/octet-stream" else answer.contentType;
        var body := if answer.oneTime then Redact(answer.body) else answer.body;
        CompleteIdempotentRequest(k, Stored(StatusOf(answer), body, contentType));
      }
      return Ran(answer);
    }
  }
}

/** Any number of requests racing on the same keys, with lost writes and crashes. */
module IdempotencyRuns {
  import opened Basics
  import opened Idempotency

  datatype Stage =
    | Arrived
    | Conflicted
    | Running
    | Answered(answer: Response)
    | Done(reply: Reply)

  datatype Local = Local(key: Key, request: Request, stage: Stage)

  /**
   `kept` lists, per key, the executions that ended below 500; `starts` counts the executions
   begun and `aborts` the records an execution deleted.
   */
  datatype System = System(
    records: map<Key, Record>, locals: map<nat, Local>,
    kept: map<Key, seq<Response>>, starts: map<Key, nat>, aborts: map<Key, nat>)

  /**
   `applied` and `reported` are what the database did and what the caller was told: a write can be
   lost, or be applied although the caller sees an error.
   */
  datatype Step =
    | Arrive(id: nat, key: Key, request: Request)
    | Insert(id: nat, applied: bool, reported: bool)
    | Read(id: nat, fails: bool)
    | Answer(id: nat, answer: Response)
    | Settle(id: nat, applied: bool)
    | Crash(id: nat)

  const INITIAL := System(map[], map[], map[], map[], map[])

  function Count(m: map<Key, nat>, k: Key): nat {
    if k in m then m[k] else 0
  }

  function Kept(s: System, k: Key): seq<Response> {
    if k in s.kept then s.kept[k] else []
  }

  predicate At(s: System, id: nat, stage: Stage) {
    id in s.locals && s.locals[id].stage == stage
  }

  function Move(s: System, id: nat, stage: Stage): System
    requires id in s.locals
  {
    s.(locals := s.locals[id := s.locals[id].(stage := stage)])
  }

  /** The INSERT of StartIdempotentRequest: the unique index admits one record per user and key. */
  function Inserted(s: System, id: nat, applied: bool, reported: bool): System
    requires id in s.locals
  {
    var k := s.locals[id].key;
    var written := s.(records := s.records[k := Record(s.locals[id].request, Processing)]);
    if k in s.records then Move(s, id, if reported then Conflicted else Done(Unavailable))
    else if applied && reported then Move(written.(starts := s.starts[k := Count(s.starts, k) + 1]), id, Running)
    else if applied then Move(written, id, Done(Unavailable))
    else Move(s, id, Done(Unavailable))
  }

  /** The separate SELECT after a unique violation; the record may be gone by then. */
  function ReadBack(s: System, id: nat, fails: bool): System
    requires id in s.locals
  {
    var k := s.locals[id].key;
    Move(s, id, Done(if fails || k !in s.records then Unavailable else Judge(s.records[k], s.locals[id].request)))
  }

  function HandlerAnswered(s: System, id: nat, answer: Response): System
    requires id in s.locals
  {
    var k := s.locals[id].key;
    Move(if Fails(answer) then s else s.(kept := s.kept[k := Kept(s, k) + [answer]]), id, Answered(answer))
  }

  /** Complete or Abort, whose error the middleware ignores. */
  function SettledBy(s: System, id: nat, applied: bool): System
    requires id in s.locals && s.locals[id].stage.Answered?
  {
    var k, answer := s.locals[id].key, s.locals[id].stage.answer;
    var moved := Move(s, id, Done(Ran(answer)));
    if !applied then moved
    else moved.(records := Settled(s.records, k, answer),
                aborts := if k in s.records && k !in Settled(s.records, k, answer)
                          then s.aborts[k := Count(s.aborts, k) + 1] else s.aborts)
  }

  function Apply(s: System, step: Step): System {
    match step
    case Arrive(id, key, request) =>
      if id in s.locals then s else s.(locals := s.locals[id := Local(key, request, Arrived)])
    case Insert(id, applied, reported) => if At(s, id, Arrived) then Inserted(s, id, applied, reported) else s
    case Read(id, fails) => if At(s, id, Conflicted) then ReadBack(s, id, fails) else s
    case Answer(id, answer) => if At(s, id, Running) then HandlerAnswered(s, id, answer) else s
    case Settle(id, applied) => if id in s.locals && s.locals[id].stage.Answered? then SettledBy(s, id, applied) else s
    case Crash(id) => s.(locals := s.locals - {id})
  }

  function Run(steps: seq<Step>): System {
    if steps == [] then INITIAL else Apply(Run(steps[..|steps| - 1]), steps[|steps| - 1])
  }

  // ---- the invariant

  /** The request holds the key: its handler runs, or has answered and is not settled yet. */
  predicate Holds(s: System, id: nat) {
    id in s.locals && (s.locals[id].stage.Running? || s.locals[id].stage.Answered?)
  }

  ghost predicate HolderOk(s: System, id: nat) {
    Holds(s, id) ==>
      var l := s.locals[id];
      && l.key in s.records && s.records[l.key] == Record(l.request, Processing)
      && (l.stage.Running? ==> Kept(s, l.key) == [])
      && (l.stage.Answered? ==> Kept(s, l.key) == if Fails(l.stage.answer) then [] else [l.stage.answer])
  }

  ghost predicate KeyOk(s: System, k: Key) {
    && |Kept(s, k)| <= 1
    && (Kept(s, k) != [] ==> k in s.records)
    && (k in s.records && s.records[k].progress.Completed? ==>
          Kept(s, k) != [] && s.records[k].progress.response == ToStore(Kept(s, k)[0]))
    && Count(s.starts, k) <= Count(s.aborts, k) + if k in s.records then 1 else 0
  }

  predicate ReplyOk(s: System, id: nat) {
    id in s.locals && s.locals[id].stage.Done? && s.locals[id].stage.reply.Replayed? ==>
      var k := s.locals[id].key;
      && Kept(s, k) != [] && s.locals[id].stage.reply.response == ToStore(Kept(s, k)[0])
      && k in s.records && s.records[k].request == s.locals[id].request
  }

  ghost predicate OneHolder(s: System) {
    forall a, b | Holds(s, a) && Holds(s, b) && s.locals[a].key == s.locals[b].key :: a == b
  }

  ghost predicate Inv(s: System) {
    && OneHolder(s)
    && (forall id: nat :: HolderOk(s, id))
    && (forall id: nat :: ReplyOk(s, id))
    && (forall k :: KeyOk(s, k))
  }

  lemma {:induction false} InsertKeepsHolder(s: System, id: nat, applied: bool, reported: bool, a: nat)
    requires At(s, id, Arrived) && HolderOk(s, a) && ReplyOk(s, a) && KeyOk(s, s.locals[id].key)
    ensures HolderOk(Inserted(s, id, applied, reported), a) && ReplyOk(Inserted(s, id, applied, reported), a)
  {
    hide ToStore, Fails, Judge, Count, Kept;
    SameKept(s, id, applied, reported);
  }

  lemma {:induction false} SameKept(s: System, id: nat, applied: bool, reported: bool)
    requires At(s, id, Arrived)
    ensures forall k :: Kept(Inserted(s, id, applied, reported), k) == Kept(s, k)
  {
  }

  lemma {:induction false} InsertKeepsOne(s: System, id: nat, applied: bool, reported: bool)
    requires Inv(s) && At(s, id, Arrived)
    ensures OneHolder(Inserted(s, id, applied, reported))
  {
    hide KeyOk, ReplyOk;
    var s' := Inserted(s, id, applied, reported);
    forall a, b | Holds(s', a) && Holds(s', b) && s'.locals[a].key == s'.locals[b].key
      ensures a == b
    {
      assert HolderOk(s, a) && HolderOk(s, b);
    }
  }

  lemma {:induction false} InsertKeeps(s: System, id: nat, applied: bool, reported: bool)
    requires Inv(s) && At(s, id, Arrived)
    ensures Inv(Inserted(s, id, applied, reported))
  {
    InsertKeepsOne(s, id, applied, reported);
    var s' := Inserted(s, id, applied, reported);
    forall k
      ensures KeyOk(s', k)
    {
      assert KeyOk(s, k);
    }
    hide KeyOk, HolderOk, ReplyOk, OneHolder;
    forall a: nat
      ensures HolderOk(s', a) && ReplyOk(s', a)
    {
      InsertKeepsHolder(s, id, applied, reported, a);
    }
  }

  lemma {:induction false} ReadKeeps(s: System, id: nat, fails: bool)
    requires Inv(s) && At(s, id, Conflicted)
    ensures Inv(ReadBack(s, id, fails))
  {
    var s' := ReadBack(s, id, fails);
    forall a: nat
      ensures HolderOk(s', a) && ReplyOk(s', a)
    {
      assert HolderOk(s, a) && ReplyOk(s, a);
      assert KeyOk(s, s.locals[id].key);
    }
    forall k
      ensures KeyOk(s', k)
    {
      assert KeyOk(s, k);
    }
  }

  lemma {:induction false} AnswerKeepsHolder(s: System, id: nat, answer: Response, a: nat)
    requires Inv(s) && At(s, id, Running)
    ensures HolderOk(HandlerAnswered(s, id, answer), a) && ReplyOk(HandlerAnswered(s, id, answer), a)
  {
    hide KeyOk, ToStore;
    assert HolderOk(s, id) && HolderOk(s, a) && ReplyOk(s, a);
  }

  lemma {:induction false} AnswerKeeps(s: System, id: nat, answer: Response)
    requires Inv(s) && At(s, id, Running)
    ensures Inv(HandlerAnswered(s, id, answer))
  {
    var s' := HandlerAnswered(s, id, answer);
    assert HolderOk(s, id);
    forall k
      ensures KeyOk(s', k)
    {
      assert KeyOk(s, k);
    }
    hide KeyOk, HolderOk, ReplyOk;
    forall a: nat
      ensures HolderOk(s', a) && ReplyOk(s', a)
    {
      AnswerKeepsHolder(s, id, answer, a);
    }
  }

  lemma {:induction false} SettleKeeps(s: System, id: nat, applied: bool)
    requires Inv(s) && id in s.locals && s.locals[id].stage.Answered?
    ensures Inv(SettledBy(s, id, applied))
  {
    var s' := SettledBy(s, id, applied);
    assert HolderOk(s, id);
    forall a: nat
      ensures HolderOk(s', a) && ReplyOk(s', a)
    {
      assert HolderOk(s, a) && ReplyOk(s, a);
    }
    forall k
      ensures KeyOk(s', k)
    {
      assert KeyOk(s, k);
    }
  }

  lemma {:induction false} ApplyKeeps(s: System, step: Step)
    requires Inv(s)
    ensures Inv(Apply(s, step))
  {
    match step
    case Insert(id, applied, reported) =>
      if At(s, id, Arrived) {
        InsertKeeps(s, id, applied, reported);
      }
    case Read(id, fails) =>
      if At(s, id, Conflicted) {
        ReadKeeps(s, id, fails);
      }
    case Answer(id, answer) =>
      if At(s, id, Running) {
        AnswerKeeps(s, id, answer);
      }
    case Settle(id, applied) =>
      if id in s.locals && s.locals[id].stage.Answered? {
        SettleKeeps(s, id, applied);
      }
    case Arrive(_, _, _) => LocalsKeep(s, step);
    case Crash(_) => LocalsKeep(s, step);
  }

  /** A new request holds nothing yet, and a crashed one no longer does. */
  lemma {:induction false} LocalsKeep(s: System, step: Step)
    requires Inv(s) && (step.Arrive? || step.Crash?)
    ensures Inv(Apply(s, step))
  {
    var s' := Apply(s, step);
    forall a: nat
      ensures HolderOk(s', a) && ReplyOk(s', a)
    {
      assert HolderOk(s, a) && ReplyOk(s, a);
    }
    forall k
      ensures KeyOk(s', k)
    {
      assert KeyOk(s, k);
    }
  }

  lemma {:induction false} Reachable(steps: seq<Step>)
    ensures Inv(Run(steps))
  {
    if steps != [] {
      hide Inv, Apply;
      Reachable(steps[..|steps| - 1]);
      ApplyKeeps(Run(steps[..|steps| - 1]), steps[|steps| - 1]);
    }
  }

  // ---- what every run guarantees

  /** Two handlers never run at the same time for one key, nor does one run while another's answer is unsettled. */
  lemma {:induction false} OneExecutionAtATime(steps: seq<Step>, a: nat, b: nat)
    requires Holds(Run(steps), a) && Holds(Run(steps), b) && Run(steps).locals[a].key == Run(steps).locals[b].key
    ensures a == b
  {
    Reachable(steps);
    hide Run;
  }

  /** At most one execution of a key ever ends below 500; each further execution was made room for by an abort. */
  lemma {:induction false} AtMostOneKept(steps: seq<Step>, k: Key)
    ensures |Kept(Run(steps), k)| <= 1
    ensures Count(Run(steps).starts, k) <= Count(Run(steps).aborts, k) + 1
  {
    Reachable(steps);
    assert KeyOk(Run(steps), k);
  }

  /** Kept are exactly the answers below 500: none other is, and the handler's answer is kept if it is one. */
  lemma {:induction false} KeptAreTheAnswersBelow500(steps: seq<Step>, k: Key)
    ensures forall i | 0 <= i < |Kept(Run(steps), k)| :: Kept(Run(steps), k)[i].status < 500
    ensures forall id, answer: Response | At(Run(steps), id, Running) ::
              var u := Apply(Run(steps), Answer(id, answer));
              Kept(u, Run(steps).locals[id].key) == if answer.status < 500 then [answer] else []
  {
    if steps != [] {
      KeptAreTheAnswersBelow500(steps[..|steps| - 1], k);
      KeptStaysBelow500(Run(steps[..|steps| - 1]), steps[|steps| - 1], k);
    }
    forall id, answer: Response | At(Run(steps), id, Running)
      ensures Kept(Apply(Run(steps), Answer(id, answer)), Run(steps).locals[id].key)
           == if answer.status < 500 then [answer] else []
    {
      Reachable(steps);
      hide Run;
      assert HolderOk(Run(steps), id);
    }
  }

  lemma {:induction false} KeptStaysBelow500(s: System, step: Step, k: Key)
    requires forall i | 0 <= i < |Kept(s, k)| :: Kept(s, k)[i].status < 500
    ensures forall i | 0 <= i < |Kept(Apply(s, step), k)| :: Kept(Apply(s, step), k)[i].status < 500
  {
    hide Settled, Judge, ToStore;
    if step.Answer? && At(s, step.id, Running) && s.locals[step.id].key == k && !Fails(step.answer) {
      assert Kept(Apply(s, step), k) == Kept(s, k) + [step.answer];
    } else {
      assert Kept(Apply(s, step), k) == Kept(s, k);
    }
  }

  /** Once an execution of a key has ended below 500, no handler starts for it again. */
  lemma {:induction false} NothingRunsAfterwards(steps: seq<Step>, more: seq<Step>, k: Key)
    requires Kept(Run(steps), k) != []
    ensures Kept(Run(steps + more), k) == Kept(Run(steps), k)
    ensures Count(Run(steps + more).starts, k) == Count(Run(steps).starts, k)
  {
    hide Inv, Apply, Kept, Count;
    if more == [] {
      assert steps + more == steps;
    } else {
      var n := |more| - 1;
      NothingRunsAfterwards(steps, more[..n], k);
      assert (steps + more)[..|steps| + n] == steps + more[..n];
      hide Run, Apply;
      Reachable(steps + more[..n]);
      KeptStays(Run(steps + more[..n]), more[n], k);
    }
  }

  lemma {:induction false} KeptStays(s: System, step: Step, k: Key)
    requires Inv(s) && Kept(s, k) != []
    ensures Kept(Apply(s, step), k) == Kept(s, k) && Count(Apply(s, step).starts, k) == Count(s.starts, k)
  {
    assert KeyOk(s, k);
    if step.Answer? && At(s, step.id, Running) {
      assert HolderOk(s, step.id);
    }
  }

  /** Every replay is the one kept answer as stored, to a request that equals the one that ran. */
  lemma {:induction false} ReplaysTheKeptAnswer(steps: seq<Step>, id: nat)
    requires var s := Run(steps); id in s.locals && s.locals[id].stage.Done? && s.locals[id].stage.reply.Replayed?
    ensures var s := Run(steps);
            var k := s.locals[id].key;
            && |Kept(s, k)| == 1 && s.locals[id].stage.reply == Replayed(ToStore(Kept(s, k)[0]))
            && k in s.records && s.records[k].request == s.locals[id].request
  {
    Reachable(steps);
    hide Run;
    var s := Run(steps);
    assert ReplyOk(s, id) && KeyOk(s, s.locals[id].key);
  }

  /** The step of the request that calls for the reply, on the records as they are then. */
  predicate Earns(s: System, step: Step, id: nat, reply: Reply) {
    && id in s.locals
    && var k, mine := s.locals[id].key, s.locals[id].request;
    match step
    case Insert(i, applied, reported) =>
      i == id && reply == Unavailable && (!reported || (k !in s.records && !applied))
    case Read(i, fails) =>
      && i == id
      && (reply == Unavailable <==> fails || k !in s.records)
      && (reply.KeyConflict? ==>
            && k in s.records
            && (s.records[k].request.verb != mine.verb || s.records[k].request.path != mine.path
                || s.records[k].request.bodyHash != mine.bodyHash))
      && (reply.InProgress? || reply.Replayed? ==>
            && k in s.records && s.records[k].request.verb == mine.verb && s.records[k].request.path == mine.path
            && s.records[k].request.bodyHash == mine.bodyHash)
      && (reply.InProgress? ==> s.records[k].progress.Processing?)
      && (reply.Replayed? ==> s.records[k].progress == Completed(reply.response))
      && !reply.Ran?
    case Settle(i, _) => i == id && s.locals[id].stage.Answered? && reply == Ran(s.locals[id].stage.answer)
    case _ => false
  }

  lemma {:induction false} StepEarns(s: System, step: Step, id: nat)
    requires id in Apply(s, step).locals && Apply(s, step).locals[id].stage.Done?
    ensures (id in s.locals && s.locals[id] == Apply(s, step).locals[id])
            || Earns(s, step, id, Apply(s, step).locals[id].stage.reply)
  {
    hide Apply, Earns;
    if (step.Insert? || step.Read? || step.Settle?) && step.id == id {
      OwnStepEarns(s, step, id);
    } else {
      OthersAnswerNobody(s, step, id);
    }
  }

  lemma {:induction false} OthersAnswerNobody(s: System, step: Step, id: nat)
    requires id in Apply(s, step).locals && Apply(s, step).locals[id].stage.Done?
    requires (step.Insert? || step.Read? || step.Settle?) ==> step.id != id
    ensures id in s.locals && s.locals[id] == Apply(s, step).locals[id]
  {
    hide Settled, ToStore, Kept, Count, Fails, Judge;
  }

  lemma {:induction false} OwnStepEarns(s: System, step: Step, id: nat)
    requires (step.Insert? || step.Read? || step.Settle?) && step.id == id
    requires id in Apply(s, step).locals && Apply(s, step).locals[id].stage.Done?
    ensures (id in s.locals && s.locals[id] == Apply(s, step).locals[id])
            || Earns(s, step, id, Apply(s, step).locals[id].stage.reply)
  {
    hide Settled, ToStore, Kept, Count, Fails;
    match step
    case Insert(_, _, _) => hide Judge;
    case Read(_, fails) =>
      if At(s, id, Conflicted) {
        ReadEarns(s, id, fails);
      }
      hide Earns, Judge;
    case Settle(_, _) => hide Judge;
  }

  lemma {:induction false} ReadEarns(s: System, id: nat, fails: bool)
    requires At(s, id, Conflicted)
    ensures ReadBack(s, id, fails).locals[id].stage.Done?
    ensures Earns(s, Read(id, fails), id, ReadBack(s, id, fails).locals[id].stage.reply)
  {
  }

  /** Every reply is the one its records called for at a step of that request. */
  lemma {:induction false} EveryReplyIsEarned(steps: seq<Step>, id: nat)
    requires id in Run(steps).locals && Run(steps).locals[id].stage.Done?
    ensures exists j :: 0 <= j < |steps| && Earns(Run(steps[..j]), steps[j], id, Run(steps).locals[id].stage.reply)
  {
    var n := |steps| - 1;
    var s := Run(steps[..n]);
    StepEarns(s, steps[n], id);
    hide Apply, Earns;
    if id in s.locals && s.locals[id] == Run(steps).locals[id] {
      EveryReplyIsEarned(steps[..n], id);
      var j :| 0 <= j < n && Earns(Run(steps[..n][..j]), steps[..n][j], id, s.locals[id].stage.reply);
      assert steps[..n][..j] == steps[..j] && steps[..n][j] == steps[j];
    }
  }

  /** A request that finds the key taken goes on to read its record. */
  lemma {:induction false} TakenKeysAreRead(s: System, id: nat, applied: bool)
    requires At(s, id, Arrived) && s.locals[id].key in s.records
    ensures At(Apply(s, Insert(id, applied, true)), id, Conflicted)
    ensures Apply(s, Insert(id, applied, true)).records == s.records
  {
  }

  /** The key is lost: its record says processing, but no live request will ever settle it. */
  ghost predicate Orphaned(s: System, k: Key) {
    && k in s.records && s.records[k].progress.Processing?
    && forall id: nat | Holds(s, id) :: s.locals[id].key != k
  }

  /**
   The steps that orphan a key: its holder crashes, the write that should settle it is lost, or the
   insert is applied although its caller is told that it failed.
   */
  predicate Orphans(s: System, step: Step, k: Key) {
    match step
    case Crash(id) => Holds(s, id) && s.locals[id].key == k
    case Settle(id, applied) => !applied && id in s.locals && s.locals[id].stage.Answered? && s.locals[id].key == k
    case Insert(id, applied, reported) =>
      At(s, id, Arrived) && applied && !reported && s.locals[id].key == k && k !in s.records
    case _ => false
  }

  /** In a reachable state a key becomes orphaned by exactly those steps. */
  lemma {:induction false} OrphanedExactlyBy(steps: seq<Step>, step: Step, k: Key)
    requires !Orphaned(Run(steps), k)
    ensures Orphaned(Apply(Run(steps), step), k) <==> Orphans(Run(steps), step, k)
  {
    Reachable(steps);
    hide Run;
    var s := Run(steps);
    if Orphans(s, step, k) {
      OrphansDo(s, step, k);
    } else {
      OthersDoNot(s, step, k);
    }
  }

  lemma {:induction false} OrphansDo(s: System, step: Step, k: Key)
    requires Inv(s) && Orphans(s, step, k)
    ensures Orphaned(Apply(s, step), k)
  {
    hide KeyOk, ReplyOk, Settled, ToStore, Judge;
    if !step.Insert? {
      assert Holds(s, step.id) && HolderOk(s, step.id);
    }
    forall id: nat | Holds(Apply(s, step), id)
      ensures Apply(s, step).locals[id].key != k
    {
      assert Holds(s, id);
      assert HolderOk(s, id);
    }
  }

  /** A key that is processing and not orphaned has a holder, and any other step leaves it one or settles it. */
  lemma {:induction false} OthersDoNot(s: System, step: Step, k: Key)
    requires Inv(s) && !Orphaned(s, k) && !Orphans(s, step, k)
    ensures !Orphaned(Apply(s, step), k)
  {
    var u := Apply(s, step);
    hide Apply, Inv;
    if k in s.records && s.records[k].progress.Processing? {
      var id: nat :| Holds(s, id) && s.locals[id].key == k;
      HolderGoesOn(s, step, k, id);
    } else if k !in s.records && step.Insert? && At(s, step.id, Arrived) && s.locals[step.id].key == k {
      InsertsAndHolds(s, step, k);
    } else {
      StaysUnclaimed(s, step, k);
    }
  }

  lemma {:induction false} HolderGoesOn(s: System, step: Step, k: Key, id: nat)
    requires Inv(s) && Holds(s, id) && s.locals[id].key == k && !Orphans(s, step, k)
    ensures var u := Apply(s, step);
            || (Holds(u, id) && u.locals[id].key == k) || k !in u.records || u.records[k].progress.Completed?
  {
    hide KeyOk, ReplyOk, ToStore, Judge, Kept, Count;
    assert HolderOk(s, id);
    if Holds(s, step.id) && s.locals[step.id].key == k {
      assert step.id == id;
    }
  }

  lemma {:induction false} InsertsAndHolds(s: System, step: Step, k: Key)
    requires k !in s.records && step.Insert? && At(s, step.id, Arrived) && s.locals[step.id].key == k
    requires !Orphans(s, step, k)
    ensures var u := Apply(s, step);
            (Holds(u, step.id) && u.locals[step.id].key == k) || k !in u.records
  {
  }

  lemma {:induction false} StaysUnclaimed(s: System, step: Step, k: Key)
    requires k !in s.records || s.records[k].progress.Completed?
    requires !(k !in s.records && step.Insert? && At(s, step.id, Arrived) && s.locals[step.id].key == k)
    ensures k in Apply(s, step).records ==> Apply(s, step).records[k].progress.Completed?
  {
    hide ToStore, Judge, Kept, Count, Fails;
    match step
    case Insert(_, _, _) => hide Settled;
    case Settle(id, _) =>
      if id in s.locals && s.locals[id].stage.Answered? {
        SettledStaysUnclaimed(s.records, s.locals[id].key, s.locals[id].stage.answer, k);
      }
      hide Settled;
    case _ =>
      hide Settled;
      assert Apply(s, step).records == s.records;
  }

  lemma {:induction false} SettledStaysUnclaimed(records: map<Key, Record>, other: Key, answer: Response, k: Key)
    requires k in records ==> records[k].progress.Completed?
    ensures k in Settled(records, other, answer) ==> Settled(records, other, answer)[k].progress.Completed?
  {
    hide ToStore;
  }

  /** An orphaned key stays orphaned: its record never changes and its handler never starts again. */
  lemma {:induction false} OrphansStay(steps: seq<Step>, more: seq<Step>, k: Key)
    requires Orphaned(Run(steps), k)
    ensures Orphaned(Run(steps + more), k) && Run(steps + more).records[k] == Run(steps).records[k]
    ensures Count(Run(steps + more).starts, k) == Count(Run(steps).starts, k)
  {
    hide Orphaned, Apply, Count;
    if more == [] {
      assert steps + more == steps;
    } else {
      var n := |more| - 1;
      OrphansStay(steps, more[..n], k);
      assert (steps + more)[..|steps| + n] == steps + more[..n];
      hide Run, Apply;
      OrphanStays(Run(steps + more[..n]), more[n], k);
    }
  }

  lemma {:induction false} OrphanStays(s: System, step: Step, k: Key)
    requires Orphaned(s, k)
    ensures Orphaned(Apply(s, step), k) && Apply(s, step).records[k] == s.records[k]
    ensures Count(Apply(s, step).starts, k) == Count(s.starts, k)
  {
    var s' := Apply(s, step);
    hide Apply;
    OrphanRecordStays(s, step, k);
    forall id: nat | Holds(s', id)
      ensures s'.locals[id].key != k
    {
      HoldersComeFrom(s, step, id);
    }
  }

  lemma {:induction false} OrphanRecordStays(s: System, step: Step, k: Key)
    requires Orphaned(s, k)
    ensures k in Apply(s, step).records && Apply(s, step).records[k] == s.records[k]
    ensures Count(Apply(s, step).starts, k) == Count(s.starts, k)
  {
    hide ToStore, Judge, Fails;
    if step.Settle? && step.id in s.locals && s.locals[step.id].stage.Answered? {
      assert Holds(s, step.id);
    }
  }

  /** A request that holds its key held it before, or has just inserted the record. */
  lemma {:induction false} HoldersComeFrom(s: System, step: Step, id: nat)
    requires Holds(Apply(s, step), id)
    ensures id in s.locals && Apply(s, step).locals[id].key == s.locals[id].key
    ensures Holds(s, id) || s.locals[id].key !in s.records
  {
    hide Settled, ToStore, Judge, Fails, Count, Kept, Redact, StatusOf;
  }

  // ---- an orphaned key answers nobody

  predicate IsRefusal(reply: Reply) {
    reply.KeyConflict? || reply.InProgress? || reply.Unavailable?
  }

  /** The request is where it was, has not been answered yet, or has been refused. */
  predicate Refusing(before: System, u: System, id: nat, k: Key) {
    id in u.locals && u.locals[id].key == k ==>
      var stage := u.locals[id].stage;
      || stage.Arrived? || stage.Conflicted? || (stage.Done? && IsRefusal(stage.reply))
      || (id in before.locals && before.locals[id] == u.locals[id])
  }

  /** Whoever uses the key from then on, whatever the request, is refused. */
  lemma {:induction false} OrphansAreRefused(steps: seq<Step>, more: seq<Step>, k: Key, id: nat)
    requires Orphaned(Run(steps), k)
    ensures Refusing(Run(steps), Run(steps + more), id, k)
  {
    hide Orphaned, Apply, Refusing;
    if more == [] {
      assert steps + more == steps;
      AtFirst(Run(steps), id, k);
    } else {
      var n := |more| - 1;
      OrphansAreRefused(steps, more[..n], k, id);
      OrphansStay(steps, more[..n], k);
      assert (steps + more)[..|steps| + n] == steps + more[..n];
      hide Run;
      RefusesNext(Run(steps), Run(steps + more[..n]), more[n], id, k);
    }
  }

  lemma {:induction false} AtFirst(s: System, id: nat, k: Key)
    ensures Refusing(s, s, id, k)
  {
  }

  lemma {:induction false} RefusesNext(before: System, s: System, step: Step, id: nat, k: Key)
    requires Orphaned(s, k) && Refusing(before, s, id, k)
    ensures Refusing(before, Apply(s, step), id, k)
  {
    hide Settled, ToStore, Kept, Count, Fails;
    assert !Holds(s, id) || s.locals[id].key != k;
  }

  // ---- and every other key can still be used

  /** A handler has started for the key since, or the key has a stored answer to replay. */
  predicate Served(s: System, u: System, k: Key) {
    Count(u.starts, k) > Count(s.starts, k) || (k in u.records && u.records[k].progress.Completed?)
  }

  lemma {:induction false} RunOneMore(steps: seq<Step>, step: Step)
    ensures Run(steps + [step]) == Apply(Run(steps), step)
  {
    hide Apply;
    assert (steps + [step])[..|steps|] == steps;
  }

  lemma {:induction false} FreshId(used: set<nat>) returns (id: nat)
    ensures id !in used
  {
    id := 0;
    var rest := used;
    while rest != {}
      invariant rest <= used && forall x | x in used && x !in rest :: x < id
      decreases |rest|
    {
      var x :| x in rest;
      rest := rest - {x};
      if x >= id {
        id := x + 1;
      }
    }
  }

  /** A new request with a free key starts its handler. */
  lemma {:induction false} FreeKeyRuns(steps: seq<Step>, k: Key) returns (more: seq<Step>)
    requires k !in Run(steps).records
    ensures Count(Run(steps + more).starts, k) == Count(Run(steps).starts, k) + 1
  {
    var s := Run(steps);
    var id := FreshId(s.locals.Keys);
    var arrive, insert := Arrive(id, k, Request("POST", "", "")), Insert(id, true, true);
    more := [arrive, insert];
    RunOneMore(steps, arrive);
    RunOneMore(steps + [arrive], insert);
    assert steps + more == steps + [arrive] + [insert];
    hide Run;
    assert At(Apply(s, arrive), id, Arrived);
  }

  /** The holder's answer settles the key: stored, or freed for the next request. */
  lemma {:induction false} HolderSettles(steps: seq<Step>, k: Key, id: nat) returns (more: seq<Step>)
    requires Holds(Run(steps), id) && Run(steps).locals[id].key == k
    ensures k in Run(steps + more).records ==> Run(steps + more).records[k].progress.Completed?
    ensures Count(Run(steps + more).starts, k) == Count(Run(steps).starts, k)
  {
    var s := Run(steps);
    Reachable(steps);
    assert HolderOk(s, id);
    hide Run, Inv, HolderOk, Apply, Count;
    if s.locals[id].stage.Answered? {
      more := [Settle(id, true)];
      RunOneMore(steps, Settle(id, true));
      SettlesTheKey(s, id);
    } else {
      var answer := Response(200, Null, "", false);
      more := [Answer(id, answer), Settle(id, true)];
      RunOneMore(steps, Answer(id, answer));
      AnswersTheKey(s, id, answer);
      RunOneMore(steps + [Answer(id, answer)], Settle(id, true));
      assert steps + more == steps + [Answer(id, answer)] + [Settle(id, true)];
      SettlesTheKey(Apply(s, Answer(id, answer)), id);
    }
  }

  lemma {:induction false} AnswersTheKey(s: System, id: nat, answer: Response)
    requires At(s, id, Running) && HolderOk(s, id)
    ensures var u := Apply(s, Answer(id, answer));
            && id in u.locals && u.locals[id].stage.Answered? && u.locals[id].key == s.locals[id].key
            && HolderOk(u, id) && u.starts == s.starts
  {
    hide ToStore;
  }

  lemma {:induction false} SettlesTheKey(s: System, id: nat)
    requires id in s.locals && s.locals[id].stage.Answered? && HolderOk(s, id)
    ensures var u, k := Apply(s, Settle(id, true)), s.locals[id].key;
            (k in u.records ==> u.records[k].progress.Completed?) && u.starts == s.starts
  {
    hide ToStore, Kept;
  }

  lemma {:induction false} UsableKeyIsServed(steps: seq<Step>, k: Key) returns (more: seq<Step>)
    requires !Orphaned(Run(steps), k)
    ensures Served(Run(steps), Run(steps + more), k)
  {
    hide Run, Apply, Inv, Count;
    var s := Run(steps);
    if k !in s.records {
      more := FreeKeyRuns(steps, k);
    } else if s.records[k].progress.Completed? {
      more := [];
      assert steps + more == steps;
    } else {
      var id: nat :| Holds(s, id) && s.locals[id].key == k;
      more := HolderSettles(steps, k, id);
      if k !in Run(steps + more).records {
        var next := FreeKeyRuns(steps + more, k);
        assert steps + more + next == steps + (more + next);
        more := more + next;
      }
    }
  }

  /**
   From a reachable state some continuation starts a handler for the key, or leaves it with an answer
   to replay, if and only if the key is not orphaned.
   */
  lemma {:induction false} UsableIffNotOrphaned(steps: seq<Step>, k: Key)
    ensures (exists more :: Served(Run(steps), Run(steps + more), k)) <==> !Orphaned(Run(steps), k)
  {
    if Orphaned(Run(steps), k) {
      forall more
        ensures !Served(Run(steps), Run(steps + more), k)
      {
        OrphansStay(steps, more, k);
      }
    } else {
      var more := UsableKeyIsServed(steps, k);
    }
  }

  /** A key is free for a new execution exactly when it has no record: never held, or aborted. */
  lemma {:induction false} RunsIffNoRecord(steps: seq<Step>, id: nat)
    requires At(Run(steps), id, Arrived)
    ensures var s := Run(steps);
            At(Apply(s, Insert(id, true, true)), id, Running) <==> s.locals[id].key !in s.records
    ensures var s := Run(steps);
            s.locals[id].key !in s.records ==>
              Kept(s, s.locals[id].key) == []
                  && forall other: nat | Holds(s, other) :: s.locals[other].key != s.locals[id].key
  {
    Reachable(steps);
    hide Run;
    var s := Run(steps);
    assert KeyOk(s, s.locals[id].key);
    forall other: nat | Holds(s, other)
      ensures s.locals[other].key == s.locals[id].key ==> s.locals[id].key in s.records
    {
      assert HolderOk(s, other);
    }
  }
}
