/**
 Chat messages and the retention run that nulls the bodies of old ones (repository/household.go).
 The cutoff, one calendar year before the clock, is passed in with the clock.
 */
module Retention {
  import opened Basics

  datatype Message = Message(
    house: nat, author: nat, body: Option<string>, createdAt: Instant, updatedAt: Instant,
    deletedAt: Option<Instant>, redactedAt: Option<Instant>)

  /** The singleton row of chat_retention_jobs. */
  datatype Job = Job(
    owner: Option<string>, expires: Option<Instant>, generation: nat,
    availableAt: Instant, lastCompletedAt: Option<Instant>)

  datatype Chats = Chats(messages: map<nat, Message>, job: Job)

  datatype ChatError = InvalidInput | NotFound

  const BODY_LIMIT := 4000

  predicate Acceptable(body: string) {
    1 <= |body| <= BODY_LIMIT
  }

  function NewMessage(house: nat, author: nat, body: string, now: Instant): Message {
    Message(house, author, Some(body), now, now, None, None)
  }

  predicate Editable(c: Chats, house: nat, id: nat, actor: nat) {
    && id in c.messages && c.messages[id].house == house && c.messages[id].author == actor
    && c.messages[id].deletedAt.None? && c.messages[id].redactedAt.None?
  }

  /** An author may still delete what retention has redacted. */
  predicate Deletable(c: Chats, house: nat, id: nat, actor: nat) {
    && id in c.messages && c.messages[id].house == house && c.messages[id].author == actor
    && c.messages[id].deletedAt.None?
  }

  // ---- the retention query

  function Batch(batch: int): nat {
    if batch <= 0 || batch > 500 then 100 else batch
  }

  predicate Overdue(m: Message, cutoff: Instant) {
    m.body.Some? && m.createdAt <= cutoff
  }

  function Backlog(messages: map<nat, Message>, cutoff: Instant): set<nat> {
    set id | id in messages && Overdue(messages[id], cutoff)
  }

  predicate Before(messages: map<nat, Message>, a: nat, b: nat)
    requires a in messages && b in messages
  {
    messages[a].createdAt < messages[b].createdAt || (messages[a].createdAt == messages[b].createdAt && a < b)
  }

  predicate IsOldest(messages: map<nat, Message>, pool: set<nat>, id: nat)
    requires pool <= messages.Keys
  {
    id in pool && forall other | other in pool && other != id :: Before(messages, id, other)
  }

  lemma {:induction false} OldestExists(messages: map<nat, Message>, pool: set<nat>)
    requires pool <= messages.Keys && pool != {}
    ensures exists id :: IsOldest(messages, pool, id)
  {
    var some :| some in pool;
    var rest := pool - {some};
    if rest == {} {
      assert forall other | other in pool :: other == some || other in rest;
      assert IsOldest(messages, pool, some);
    } else {
      OldestExists(messages, rest);
      var best :| IsOldest(messages, rest, best);
      assert forall other | other in pool :: other == some || other in rest;
      if Before(messages, best, some) {
        assert IsOldest(messages, pool, best);
      } else {
        assert IsOldest(messages, pool, some);
      }
    }
  }

  /** ORDER BY created_at, id LIMIT n. */
  function Oldest(messages: map<nat, Message>, pool: set<nat>, n: nat): (r: seq<nat>)
    requires pool <= messages.Keys
    ensures |r| == if n < |pool| then n else |pool|
  {
    if n == 0 || pool == {} then []
    else
      OldestExists(messages, pool);
      var first :| IsOldest(messages, pool, first);
      assert |pool - {first}| == |pool| - 1;
      [first] + Oldest(messages, pool - {first}, n - 1)
  }

  /** The query lists distinct rows of the pool in order, and leaves out only rows that come after all of them. */
  lemma {:induction false} OldestIsAPrefix(messages: map<nat, Message>, pool: set<nat>, n: nat)
    requires pool <= messages.Keys
    ensures var r := Oldest(messages, pool, n);
            && (forall id | id in r :: id in pool)
            && (forall i, j | 0 <= i < j < |r| :: Before(messages, r[i], r[j]))
            && (forall id, other | id in r && other in pool && other !in r :: Before(messages, id, other))
  {
    if n > 0 && pool != {} {
      OldestExists(messages, pool);
      var first :| IsOldest(messages, pool, first);
      var r := Oldest(messages, pool, n);
      assert first == r[0] by {
        assert IsOldest(messages, pool, r[0]);
      }
      OldestIsAPrefix(messages, pool - {first}, n - 1);
      var rest := Oldest(messages, pool - {first}, n - 1);
      assert r == [first] + rest;
      assert forall id | id in r :: id == first || id in rest;
      assert forall j | 0 < j < |r| :: r[j] == rest[j - 1] && r[j] in rest;
    }
  }

  function Redacted(m: Message, now: Instant): Message {
    m.(body := None, redactedAt := Some(now), updatedAt := now)
  }

  function RedactAll(messages: map<nat, Message>, ids: seq<nat>, now: Instant): map<nat, Message> {
    map id | id in messages ::
      if id in ids && messages[id].body.Some? then Redacted(messages[id], now) else messages[id]
  }

  predicate Due(job: Job, now: Instant) {
    job.availableAt <= now && (job.expires.None? || job.expires.value <= now)
  }

  function Targets(c: Chats, batch: int, cutoff: Instant): seq<nat> {
    Oldest(c.messages, Backlog(c.messages, cutoff), Batch(batch))
  }

  /** One retention run; a job that is not due is left alone. */
  function Retained(c: Chats, batch: int, now: Instant, cutoff: Instant): Chats {
    if !Due(c.job, now) then c
    else
      var targets := Targets(c, batch, cutoff);
      Chats(RedactAll(c.messages, targets, now),
            Job(None, None, c.job.generation + 1, if |targets| == Batch(batch) then now else now + DAY, Some(now)))
  }

  class HouseholdRepository {
    var messages: map<nat, Message>
    var job: Job

    function All(): Chats
      reads this
    {
      Chats(messages, job)
    }

    constructor (epoch: Instant)
      ensures All() == Chats(map[], Job(None, None, 0, epoch, None))
    {
      messages := map[];
      job := Job(None, None, 0, epoch, None);
    }

    method CreateChat(id: nat, house: nat, actor: nat, body: string, now: Instant)
        returns (r: Result<Message, ChatError>)
      requires id !in messages
      modifies this`messages
      ensures r.Success? <==> Acceptable(body)
      ensures r.Failure? ==> r.error == InvalidInput && messages == old(messages)
      ensures r.Success? ==> r.value == NewMessage(house, actor, body, now) && messages == old(messages)[id := r.value]
      ensures r.Success? <==> 1 <= |body| <= 4000
      ensures r.Success? ==> r.value == Message(house, actor, Some(body), now, now, None, None)
    {
      if body == "" || |body| > BODY_LIMIT {
        return Failure(InvalidInput);
      }
      messages := messages[id := Message(house, actor, Some(body), now, now, None, None)];
      return Success(messages[id]);
    }

    method EditChat(house: nat, id: nat, actor: nat, body: string, now: Instant) returns (r: Result<Message, ChatError>)
      modifies this`messages
      ensures r == if !Acceptable(body) then Failure(InvalidInput)
                   else if !Editable(old(All()), house, id, actor) then Failure(NotFound)
                   else Success(old(messages)[id].(body := Some(body), updatedAt := now))
      ensures messages == if r.Success? then old(messages)[id := r.value] else old(messages)
      ensures r.Success? <==>
        && 1 <= |body| <= 4000 && id in old(messages)
        && old(messages)[id].house == house && old(messages)[id].author == actor
        && old(messages)[id].deletedAt.None? && old(messages)[id].redactedAt.None?
    {
      if body == "" || |body| > BODY_LIMIT {
        return Failure(InvalidInput);
      }
      if id !in messages {
        return Failure(NotFound);
      }
      var m := messages[id];
      if m.house != house || m.author != actor || m.deletedAt.Some? || m.redactedAt.Some? {
        return Failure(NotFound);
      }
      messages := messages[id := m.(body := Some(body), updatedAt := now)];
      return Success(messages[id]);
    }

    method DeleteChat(house: nat, id: nat, actor: nat, now: Instant) returns (found: bool)
      modifies this`messages
      ensures found <==> Deletable(old(All()), house, id, actor)
      ensures messages ==
              if found
              then old(messages)[id := old(messages)[id].(body := None, deletedAt := Some(now), updatedAt := now)]
                          else old(messages)
      ensures found <==>
        && id in old(messages) && old(messages)[id].house == house && old(messages)[id].author == actor
        && old(messages)[id].deletedAt.None?
    {
      if id !in messages || messages[id].house != house || messages[id].author != actor
          || messages[id].deletedAt.Some? {
        return false;
      }
      messages := messages[id := messages[id].(body := None, deletedAt := Some(now), updatedAt := now)];
      return true;
    }

    /** The loop over the selected rows, each update guarded by its own WHERE clause. */
    method Redact(targets: seq<nat>, now: Instant)
      modifies this`messages
      ensures messages == RedactAll(old(messages), targets, now)
    {
      hide RedactAll;
      var i := 0;
      NothingRedacted(messages, now);
      assert targets[..0] == [];
      while i < |targets|
        invariant 0 <= i <= |targets| && messages == RedactAll(old(messages), targets[..i], now)
      {
        var id := targets[i];
        RedactOneMore(old(messages), targets[..i], id, now);
        assert targets[..i + 1] == targets[..i] + [id];
        if id in messages && messages[id].body.Some? {
          messages := messages[id := messages[id].(body := None, redactedAt := Some(now), updatedAt := now)];
        }
        i := i + 1;
      }
      assert targets[..i] == targets;
    }

    /** Always commits: nobody else can have taken the row claimed in the same transaction. */
    method RunChatRetention(owner: string, lease: Duration, batch: int, now: Instant, cutoff: Instant)
        returns (redacted: nat)
      modifies this
      ensures All() == Retained(old(All()), batch, now, cutoff)
      ensures redacted == if Due(old(job), now) then |Targets(old(All()), batch, cutoff)| else 0
      ensures RanRetention(old(All()), All(), redacted, batch, now, cutoff)
    {
      RetainedRan(All(), batch, now, cutoff);
      hide RanRetention, RedactAll;
      var limit := if batch <= 0 || batch > 500 then 100 else batch;
      if !(job.availableAt <= now && (job.expires.None? || job.expires.value <= now)) {
        return 0;
      }
      job := job.(owner := Some(owner), expires := Some(now + lease), generation := job.generation + 1);
      var generation := job.generation;
      var targets := Oldest(messages, Backlog(messages, cutoff), limit);
      Redact(targets, now);
      var next := if |targets| == limit then now else now + DAY;
      assert job.owner == Some(owner) && job.generation == generation;
      job := job.(availableAt := next, owner := None, expires := None, lastCompletedAt := Some(now));
      return |targets|;
    }
  }

  lemma {:induction false} NothingRedacted(messages: map<nat, Message>, now: Instant)
    ensures RedactAll(messages, [], now) == messages
  {
  }

  lemma {:induction false} RedactOneMore(messages: map<nat, Message>, ids: seq<nat>, id: nat, now: Instant)
    ensures var done := RedactAll(messages, ids, now);
            RedactAll(messages, ids + [id], now)
              == if id in done && done[id].body.Some? then done[id := Redacted(done[id], now)] else done
  {
  }

  // ---- every run

  datatype Step =
    | Create(id: nat, house: nat, author: nat, body: string, now: Instant)
    | Edit(house: nat, id: nat, actor: nat, body: string, now: Instant)
    | Delete(house: nat, id: nat, actor: nat, now: Instant)
    | Retain(batch: int, now: Instant, cutoff: Instant)

  function Apply(c: Chats, step: Step): Chats {
    match step
    case Create(id, house, author, body, now) =>
      if id in c.messages || !Acceptable(body) then c
      else c.(messages := c.messages[id := NewMessage(house, author, body, now)])
    case Edit(house, id, actor, body, now) =>
      if !Acceptable(body) || !Editable(c, house, id, actor) then c
      else c.(messages := c.messages[id := c.messages[id].(body := Some(body), updatedAt := now)])
    case Delete(house, id, actor, now) =>
      if !Deletable(c, house, id, actor) then c
      else c.(messages := c.messages[id := c.messages[id].(body := None, deletedAt := Some(now), updatedAt := now)])
    case Retain(batch, now, cutoff) => Retained(c, batch, now, cutoff)
  }

  function Run(epoch: Instant, steps: seq<Step>): Chats {
    if steps == [] then Chats(map[], Job(None, None, 0, epoch, None))
    else Apply(Run(epoch, steps[..|steps| - 1]), steps[|steps| - 1])
  }

  predicate MessageOk(m: Message) {
    && (m.body.None? <==> m.deletedAt.Some? || m.redactedAt.Some?)
    && (m.body.Some? ==> Acceptable(m.body.value))
  }

  predicate Inv(c: Chats) {
    (forall id | id in c.messages :: MessageOk(c.messages[id])) && c.job.owner.None? && c.job.expires.None?
  }

  lemma {:induction false} ApplyKeeps(c: Chats, step: Step)
    requires Inv(c)
    ensures Inv(Apply(c, step))
  {
  }

  lemma {:induction false} Reachable(epoch: Instant, steps: seq<Step>)
    ensures Inv(Run(epoch, steps))
  {
    if steps != [] {
      hide Inv, Apply;
      Reachable(epoch, steps[..|steps| - 1]);
      ApplyKeeps(Run(epoch, steps[..|steps| - 1]), steps[|steps| - 1]);
    }
  }

  /** A body is gone exactly when its message was deleted or redacted, and the retention row is never left claimed. */
  lemma {:induction false} BodyIsNullIffGone(epoch: Instant, steps: seq<Step>, id: nat)
    requires id in Run(epoch, steps).messages
    ensures var c := Run(epoch, steps);
            && (c.messages[id].body.None? <==> c.messages[id].deletedAt.Some? || c.messages[id].redactedAt.Some?)
            && c.job.owner.None? && c.job.expires.None?
  {
    Reachable(epoch, steps);
    hide Run;
    assert MessageOk(Run(epoch, steps).messages[id]);
  }

  /** No edit, and nothing else, ever brings a body back. */
  lemma {:induction false} BodiesNeverComeBack(epoch: Instant, steps: seq<Step>, more: seq<Step>, id: nat)
    requires id in Run(epoch, steps).messages && Run(epoch, steps).messages[id].body.None?
    ensures id in Run(epoch, steps + more).messages && Run(epoch, steps + more).messages[id].body.None?
  {
    if more == [] {
      assert steps + more == steps;
    } else {
      var n := |more| - 1;
      BodiesNeverComeBack(epoch, steps, more[..n], id);
      assert (steps + more)[..|steps| + n] == steps + more[..n];
      Reachable(epoch, steps + more[..n]);
      hide Run;
      GoneStays(Run(epoch, steps + more[..n]), more[n], id);
    }
  }

  lemma {:induction false} GoneStays(c: Chats, step: Step, id: nat)
    requires Inv(c) && id in c.messages && c.messages[id].body.None?
    ensures id in Apply(c, step).messages && Apply(c, step).messages[id].body.None?
  {
  }

  /** The step is a deletion by the author, or a retention run whose cutoff the message is not younger than. */
  predicate Takes(step: Step, id: nat, m: Message) {
    || (step.Delete? && step.id == id && step.actor == m.author && step.house == m.house)
    || (step.Retain? && m.createdAt <= step.cutoff)
  }

  /** A body is lost only by such a step; until then the message is as old as it was created. */
  lemma {:induction false} BodiesGoOnlyByDeletionOrAge(epoch: Instant, steps: seq<Step>, id: nat)
    requires id in Run(epoch, steps).messages && Run(epoch, steps).messages[id].body.None?
    ensures exists k :: 0 <= k < |steps| && Takes(steps[k], id, Run(epoch, steps).messages[id])
  {
    var n := |steps| - 1;
    var c := Run(epoch, steps[..n]);
    var m := Run(epoch, steps).messages[id];
    StepTakes(c, steps[n], id);
    if id in c.messages && c.messages[id].body.None? {
      BodiesGoOnlyByDeletionOrAge(epoch, steps[..n], id);
      var k :| 0 <= k < n && Takes(steps[..n][k], id, c.messages[id]);
      assert steps[..n][k] == steps[k] && Takes(steps[k], id, m);
    } else {
      assert Takes(steps[n], id, m);
    }
  }

  lemma {:induction false} StepTakes(c: Chats, step: Step, id: nat)
    requires id in Apply(c, step).messages
    ensures var m := Apply(c, step).messages[id];
            && (id in c.messages ==>
                  && m.author == c.messages[id].author && m.house == c.messages[id].house
                  && m.createdAt == c.messages[id].createdAt)
            && (m.body.None? && (id !in c.messages || c.messages[id].body.Some?) ==>
                  id in c.messages && Takes(step, id, m))
  {
    if step.Retain? {
      RetainedRan(c, step.batch, step.now, step.cutoff);
      hide Retained, Targets;
    }
  }

  // ---- one retention run, and a backlog of them

  lemma {:induction false} DistinctCount<T>(ids: seq<T>)
    requires forall i, j | 0 <= i < j < |ids| :: ids[i] != ids[j]
    ensures |set id | id in ids| == |ids|
  {
    if ids == [] {
      assert (set id | id in ids) == {};
    } else {
      var n := |ids| - 1;
      DistinctCount(ids[..n]);
      assert ids == ids[..n] + [ids[n]];
      assert (set id | id in ids) == (set id | id in ids[..n]) + {ids[n]};
      assert ids[n] !in ids[..n];
    }
  }

  /** Redacting a listed part of the backlog takes exactly that part out of it. */
  lemma {:induction false} BacklogShrinks(messages: map<nat, Message>, ids: seq<nat>, now: Instant, cutoff: Instant)
    requires forall id | id in ids :: id in Backlog(messages, cutoff)
    ensures var after := RedactAll(messages, ids, now);
            Backlog(after, cutoff) == Backlog(messages, cutoff) - (set id | id in ids)
  {
  }

  /**
   A run redacts the oldest of the backlog and only those: whatever is left of the backlog comes
   after everything redacted, and no other message changes.
   */
  lemma {:induction false} RedactsOldestFirst(c: Chats, batch: int, now: Instant, cutoff: Instant)
    requires Due(c.job, now)
    ensures var pool, after := Backlog(c.messages, cutoff), Retained(c, batch, now, cutoff).messages;
            var left := Backlog(after, cutoff);
            && after.Keys == c.messages.Keys && left <= pool
            && (forall id | id in after :: after[id] == if id in pool - left then Redacted(c.messages[id], now)
                else c.messages[id])
            && (forall id, other | id in pool - left && other in left :: Before(c.messages, id, other))
            && |pool - left| == (if Batch(batch) < |pool| then Batch(batch) else |pool|)
  {
    hide Oldest, Batch;
    var pool, targets := Backlog(c.messages, cutoff), Targets(c, batch, cutoff);
    OldestIsAPrefix(c.messages, pool, Batch(batch));
    var chosen := set id | id in targets;
    BacklogShrinks(c.messages, targets, now, cutoff);
    assert pool - (pool - chosen) == chosen;
    DistinctCount(targets);
  }

  /**
   Column by column: `redacted` bodies no younger than the cutoff are nulled, the oldest ones first and at
   most `limit`; if fewer, no message that old has a body afterwards.
   */
  ghost predicate NulledOldest(before: map<nat, Message>, after: map<nat, Message>, redacted: nat, limit: nat,
                               now: Instant, cutoff: Instant) {
    && after.Keys == before.Keys && redacted <= limit && redacted == |set id | id in before && after[id] != before[id]|
    && (forall id | id in before && after[id] != before[id] ::
          && before[id].body.Some? && before[id].createdAt <= cutoff
          && after[id] == before[id].(body := None, redactedAt := Some(now), updatedAt := now))
    && (forall id, other | id in before && other in before && after[id] != before[id]
                           && after[other].body.Some? && before[other].createdAt <= cutoff ::
          || before[id].createdAt < before[other].createdAt
          || (before[id].createdAt == before[other].createdAt && id < other))
    && (redacted < limit ==> forall id | id in after && after[id].createdAt <= cutoff :: after[id].body.None?)
  }

  /** A job that is not due leaves everything alone; a due one runs, and again at once only after a whole batch. */
  ghost predicate RanRetention(c: Chats, u: Chats, redacted: nat, batch: int, now: Instant, cutoff: Instant) {
    var limit := if 1 <= batch <= 500 then batch else 100;
    if c.job.availableAt > now || (c.job.expires.Some? && c.job.expires.value > now) then redacted == 0 && u == c
    else
      && u.job == Job(None, None, c.job.generation + 1, if redacted < limit then now + DAY else now, Some(now))
      && NulledOldest(c.messages, u.messages, redacted, limit, now, cutoff)
  }

  lemma {:induction false} RetainedRan(c: Chats, batch: int, now: Instant, cutoff: Instant)
    ensures var redacted := if Due(c.job, now) then |Targets(c, batch, cutoff)| else 0;
            RanRetention(c, Retained(c, batch, now, cutoff), redacted, batch, now, cutoff)
  {
    if Due(c.job, now) {
      var u := Retained(c, batch, now, cutoff);
      var pool, left := Backlog(c.messages, cutoff), Backlog(u.messages, cutoff);
      RedactsOldestFirst(c, batch, now, cutoff);
      RetainedJob(c, batch, now, cutoff);
      hide Retained, Targets, RedactAll, Backlog, NulledOldest;
      if |pool - left| < Batch(batch) {
        Smaller(pool - left, pool);
        assert left == {};
      }
      TookTheOldest(c.messages, u.messages, pool, left, Batch(batch), now, cutoff);
    }
  }

  lemma {:induction false} TookTheOldest(before: map<nat, Message>, after: map<nat, Message>, pool: set<nat>,
                                         left: set<nat>, limit: nat, now: Instant, cutoff: Instant)
    requires after.Keys == before.Keys && left <= pool && |pool - left| <= limit
    requires pool == Backlog(before, cutoff) && left == Backlog(after, cutoff)
    requires forall id | id in after :: after[id] == if id in pool - left then Redacted(before[id], now) else before[id]
    requires forall id, other | id in pool - left && other in left :: Before(before, id, other)
    requires |pool - left| < limit ==> left == {}
    ensures NulledOldest(before, after, |pool - left|, limit, now, cutoff)
  {
    ExactlyTheseChange(before, after, pool - left, pool, now, cutoff);
    assert (set id | id in before && after[id] != before[id]) == pool - left;
    assert forall id | id in after && after[id].body.Some? && after[id].createdAt <= cutoff :: id in left;
    hide Backlog, Redacted;
    forall id, other | id in before && other in before && after[id] != before[id]
                       && after[other].body.Some? && before[other].createdAt <= cutoff
      ensures || before[id].createdAt < before[other].createdAt
              || (before[id].createdAt == before[other].createdAt && id < other)
    {
      assert other in left && id in pool - left;
      assert Before(before, id, other);
    }
  }

  lemma {:induction false} ExactlyTheseChange(before: map<nat, Message>, after: map<nat, Message>, ids: set<nat>,
                                              pool: set<nat>, now: Instant, cutoff: Instant)
    requires after.Keys == before.Keys && ids <= pool == Backlog(before, cutoff)
    requires forall id | id in after :: after[id] == if id in ids then Redacted(before[id], now) else before[id]
    ensures forall id | id in before :: after[id] != before[id] <==> id in ids
    ensures forall id | id in before :: after[id].createdAt == before[id].createdAt
    ensures forall id | id in ids ::
              && id in before && before[id].body.Some? && before[id].createdAt <= cutoff
              && after[id] == before[id].(body := None, redactedAt := Some(now), updatedAt := now)
  {
    forall id | id in ids
      ensures after[id] != before[id]
    {
      assert after[id].body.None? && before[id].body.Some?;
    }
  }

  lemma {:induction false} RetainedJob(c: Chats, batch: int, now: Instant, cutoff: Instant)
    requires Due(c.job, now)
    ensures var n, b := |Backlog(c.messages, cutoff)|, Batch(batch);
            && b == (if 1 <= batch <= 500 then batch else 100)
            && |Targets(c, batch, cutoff)| == (if b < n then b else n)
            && Retained(c, batch, now, cutoff).job
               == Job(None, None, c.job.generation + 1, if |Targets(c, batch, cutoff)| < b then now + DAY else now,
                      Some(now))
  {
  }

  /** k runs one after another while the clock stands still. */
  function Drained(c: Chats, k: nat, batch: int, now: Instant, cutoff: Instant): Chats
    decreases k
  {
    if k == 0 then c else Drained(Retained(c, batch, now, cutoff), k - 1, batch, now, cutoff)
  }

  lemma {:induction false} Scaled(b: int, d: int)
    requires b > 0 && d > 0
    ensures b * d >= b
  {
  }

  lemma {:induction false} Distributes(b: int, p: int, d: int)
    ensures b * (p + d) == b * p + b * d
  {
  }

  lemma {:induction false} QuotientIsUnique(b: int, p: int, r: int, q: int, t: int)
    requires b > 0 && b * p + r == b * q + t && 0 <= r < b && 0 <= t < b
    ensures p == q
  {
    if p < q {
      Distributes(b, p, q - p);
      Scaled(b, q - p);
    } else if q < p {
      Distributes(b, q, p - q);
      Scaled(b, p - q);
    }
  }

  lemma {:induction false} DivideOnce(n: int, b: int)
    requires 0 < b <= n
    ensures (n - b) / b == n / b - 1
  {
    QuotientIsUnique(b, (n - b) / b + 1, (n - b) % b, n / b, n % b);
  }

  lemma {:induction false} DivideSmall(n: int, b: int)
    requires 0 <= n < b
    ensures n / b == 0
  {
  }

  /** What one run does to the size of the backlog and to the schedule. */
  lemma {:induction false} OneRun(c: Chats, batch: int, now: Instant, cutoff: Instant)
    requires Due(c.job, now)
    ensures var n, b, after := |Backlog(c.messages, cutoff)|, Batch(batch), Retained(c, batch, now, cutoff);
            && b > 0 && after.job.expires.None?
            && after.job.availableAt == (if n >= b then now else now + DAY)
            && |Backlog(after.messages, cutoff)| == if n >= b then n - b else 0
  {
    RedactsOldestFirst(c, batch, now, cutoff);
    hide Backlog, RedactAll;
    var pool, left := Backlog(c.messages, cutoff), Backlog(Retained(c, batch, now, cutoff).messages, cutoff);
    assert pool == left + (pool - left);
    assert |pool| == |left| + |pool - left|;
  }

  lemma {:induction false} StaysPutOff(c: Chats, k: nat, batch: int, now: Instant, cutoff: Instant)
    requires !Due(c.job, now)
    ensures Drained(c, k, batch, now, cutoff) == c
    decreases k
  {
    if k > 0 {
      StaysPutOff(c, k - 1, batch, now, cutoff);
    }
  }

  /** At a fixed clock, the k-th run finds the job still due: k full batches have been redacted so far. */
  lemma {:induction false} DueWhileFull(c: Chats, k: nat, batch: int, now: Instant, cutoff: Instant)
    requires Due(c.job, now) && k <= |Backlog(c.messages, cutoff)| / Batch(batch)
    ensures var n, b := |Backlog(c.messages, cutoff)|, Batch(batch);
            && Due(Drained(c, k, batch, now, cutoff).job, now)
            && |Backlog(Drained(c, k, batch, now, cutoff).messages, cutoff)| == n - k * b
    decreases k
  {
    hide Retained, Backlog, Batch;
    if k > 0 {
      var n, b := |Backlog(c.messages, cutoff)|, Batch(batch);
      OneRun(c, batch, now, cutoff);
      if n < b {
        DivideSmall(n, b);
      } else {
        DivideOnce(n, b);
        DueWhileFull(Retained(c, batch, now, cutoff), k - 1, batch, now, cutoff);
        assert n - b - (k - 1) * b == n - k * b;
      }
    }
  }

  lemma {:induction false} DrainedSplits(c: Chats, j: nat, k: nat, batch: int, now: Instant, cutoff: Instant)
    ensures Drained(c, j + k, batch, now, cutoff) == Drained(Drained(c, j, batch, now, cutoff), k, batch, now, cutoff)
    decreases j
  {
    if j > 0 {
      DrainedSplits(Retained(c, batch, now, cutoff), j - 1, k, batch, now, cutoff);
    }
  }

  /**
   With a backlog of n the job stays due for n / batch runs; the next one empties the backlog and
   puts the job off for a day, after which nothing more happens at this clock.
   */
  lemma {:induction false} BacklogDrains(c: Chats, more: nat, batch: int, now: Instant, cutoff: Instant)
    requires Due(c.job, now)
    ensures var runs := |Backlog(c.messages, cutoff)| / Batch(batch);
            && Due(Drained(c, runs, batch, now, cutoff).job, now)
            && Backlog(Drained(c, runs + 1, batch, now, cutoff).messages, cutoff) == {}
            && Drained(c, runs + 1, batch, now, cutoff).job.availableAt == now + DAY
            && Drained(c, runs + 1 + more, batch, now, cutoff) == Drained(c, runs + 1, batch, now, cutoff)
  {
    hide Retained, Backlog, Batch;
    var n, b := |Backlog(c.messages, cutoff)|, Batch(batch);
    OneRun(c, batch, now, cutoff);
    var runs := n / b;
    DueWhileFull(c, runs, batch, now, cutoff);
    var last := Drained(c, runs, batch, now, cutoff);
    RemainderIsSmall(n, b);
    OneRun(last, batch, now, cutoff);
    DrainedSplits(c, runs, 1, batch, now, cutoff);
    assert Drained(last, 1, batch, now, cutoff) == Retained(last, batch, now, cutoff);
    DrainedSplits(c, runs + 1, more, batch, now, cutoff);
    StaysPutOff(Retained(last, batch, now, cutoff), more, batch, now, cutoff);
  }

  lemma {:induction false} RemainderIsSmall(n: nat, b: nat)
    requires b > 0
    ensures 0 <= n - n / b * b < b
  {
  }
}
