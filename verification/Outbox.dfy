/** The egress outbox: rows inserted at most once per key, delivered by a single consumer, pruned when old. */
module Outbox {
  import opened Wrappers
  import opened Text

  /** A hyphenated lower-case UUID. */
  type Uuid = s: string | |s| == 36 && forall c | c in s :: IsUuidChar(c) witness seq(36, _ => '0')

  predicate IsUuidChar(c: char) {
    '0' <= c <= '9' || 'a' <= c <= 'f' || c == '-'
  }

  datatype Target = Target(task: Option<Uuid>, owner: string, repo: string)

  datatype Intent =
    | Review
    | Reply
    | Reaction(content: string)
    | VerdictReaction
    | FailureNotice
    | CheckRunStart
    | CheckRunResolve
    | PrOpen(task: Uuid, runEpoch: int)

  /** One `enqueue_*` call. */
  datatype Call = Call(target: Target, issue: int, intent: Intent, payload: string)

  function IntText(n: int): string {
    if n < 0 then "-" + Decimal(-n) else Decimal(n)
  }

  function KeyPrefix(t: Target, issue: int): string {
    match t.task
    case Some(id) => id
    case None => t.owner + "/" + t.repo + "#" + IntText(issue)
  }

  function Suffix(i: Intent): string
    requires !i.PrOpen?
  {
    match i
    case Review => ":review"
    case Reply => ":reply"
    case Reaction(content) => ":reaction:" + content
    case VerdictReaction => ":reaction:verdict"
    case FailureNotice => ":failure_notice"
    case CheckRunStart => ":check_run:start"
    case CheckRunResolve => ":check_run:resolve"
  }

  function KeyOf(c: Call): string {
    if c.intent.PrOpen? then c.intent.task + ":" + IntText(c.intent.runEpoch) + ":pr_open"
    else KeyPrefix(c.target, c.issue) + Suffix(c.intent)
  }

  // ---------- keys are injective ----------

  /** Which agent task a call is made for, if any. */
  function TaskOf(c: Call): Option<Uuid> {
    if c.intent.PrOpen? then Some(c.intent.task) else c.target.task
  }

  function AfterTask(i: Intent): string {
    if i.PrOpen? then ":" + IntText(i.runEpoch) + ":pr_open" else Suffix(i)
  }

  /** The two intents that are given one key: the verdict, and a lifecycle reaction named "verdict". */
  predicate VerdictLike(i: Intent) {
    i == VerdictReaction || i == Reaction("verdict")
  }

  predicate SameSlot(a: Intent, b: Intent) {
    match (a, b)
    case (PrOpen(_, m), PrOpen(_, n)) => m == n
    case _ => a == b || (VerdictLike(a) && VerdictLike(b))
  }

  function Magnitude(n: int): nat {
    if n < 0 then -n else n
  }

  /** The sign is read off the first character, the rest is the magnitude. */
  lemma IntTextParts(n: int, x: string)
    ensures (IntText(n) + x)[0] == '-' <==> n < 0
    ensures (IntText(n) + x)[if n < 0 then 1 else 0..] == Decimal(Magnitude(n)) + x
  {
    DecimalStarts(n);
  }

  lemma IntTextInjective(m: int, n: int, x: string, y: string)
    requires x != "" && y != "" && !IsDigit(x[0]) && !IsDigit(y[0])
    requires IntText(m) + x == IntText(n) + y
    ensures m == n && x == y
  {
    hide Decimal, IntText, FromDigits, IsDigit;
    IntTextParts(m, x);
    IntTextParts(n, y);
    DigitPrefixUnique(Decimal(Magnitude(m)), x, Decimal(Magnitude(n)), y);
    DecimalRoundTrip(Magnitude(m));
    DecimalRoundTrip(Magnitude(n));
  }

  lemma DecimalStarts(n: int)
    ensures n >= 0 ==> IsDigit(Decimal(n)[0]) && Decimal(n)[0] != '-'
  {
  }

  /** What tells the suffixes apart: the first letters after the colon. */
  function Tag(i: Intent): string {
    match i
    case Review => "rev"
    case Reply => "rep"
    case Reaction(_) => "rea"
    case VerdictReaction => "rea"
    case FailureNotice => "fai"
    case CheckRunStart => "che"
    case CheckRunResolve => "che"
    case PrOpen(_, _) => ""
  }

  lemma FirstLetters(s: string, tag: string)
    requires |s| >= 4 && |tag| == 3 && s[1] == tag[0] && s[2] == tag[1] && s[3] == tag[2]
    ensures s[1..4] == tag
  {
  }

  lemma TagShows(i: Intent)
    ensures if i.PrOpen? then AfterTask(i)[1] == '-' || IsDigit(AfterTask(i)[1])
            else |AfterTask(i)| >= 4 && AfterTask(i)[1..4] == Tag(i)
    ensures |AfterTask(i)| >= 2 && AfterTask(i)[0] == ':'
  {
    hide Decimal;
    if i.PrOpen? {
      DecimalStarts(i.runEpoch);
    } else {
      FirstLetters(AfterTask(i), Tag(i));
    }
  }

  lemma SameSlotSameSuffix(a: Intent, b: Intent)
    requires SameSlot(a, b)
    ensures AfterTask(a) == AfterTask(b)
  {
    hide IntText;
  }

  lemma EpochsInjective(a: Intent, b: Intent)
    requires a.PrOpen? && b.PrOpen? && AfterTask(a) == AfterTask(b)
    ensures a.runEpoch == b.runEpoch
  {
    hide IntText;
    assert AfterTask(a)[1..] == IntText(a.runEpoch) + ":pr_open"
      && AfterTask(b)[1..] == IntText(b.runEpoch) + ":pr_open";
    IntTextInjective(a.runEpoch, b.runEpoch, ":pr_open", ":pr_open");
  }

  lemma SuffixesInjective(a: Intent, b: Intent)
    ensures AfterTask(a) == AfterTask(b) <==> SameSlot(a, b)
  {
    hide AfterTask;
    TagShows(a);
    TagShows(b);
    if SameSlot(a, b) {
      SameSlotSameSuffix(a, b);
    } else if AfterTask(a) == AfterTask(b) {
      if a.PrOpen? || b.PrOpen? {
        TagsOfOthers(a);
        TagsOfOthers(b);
        EpochsInjective(a, b);
      } else {
        TextAfterTag(a);
        TextAfterTag(b);
      }
    }
  }

  lemma TagsOfOthers(i: Intent)
    ensures !i.PrOpen? ==> AfterTask(i)[1] != '-' && !IsDigit(AfterTask(i)[1])
  {
  }

  lemma TextAfterTag(i: Intent)
    ensures i.Reaction? ==> AfterTask(i)[10..] == i.content
    ensures i.VerdictReaction? ==> AfterTask(i)[10..] == "verdict"
    ensures i.CheckRunStart? ==> |AfterTask(i)| == 16
    ensures i.CheckRunResolve? ==> |AfterTask(i)| == 18
  {
  }

  /** Two calls made for tasks get one key exactly when task and slot agree. */
  lemma TaskKeysInjective(a: Call, b: Call)
    requires TaskOf(a).Some? && TaskOf(b).Some?
    ensures KeyOf(a) == KeyOf(b) <==> TaskOf(a) == TaskOf(b) && SameSlot(a.intent, b.intent)
  {
    hide AfterTask, SameSlot;
    var s, t := TaskOf(a).value, TaskOf(b).value;
    KeySplits(a);
    KeySplits(b);
    SuffixesInjective(a.intent, b.intent);
    assert KeyOf(a)[..36] == s && KeyOf(b)[..36] == t;
    assert KeyOf(a)[36..] == AfterTask(a.intent) && KeyOf(b)[36..] == AfterTask(b.intent);
  }

  lemma KeySplits(c: Call)
    requires TaskOf(c).Some?
    ensures KeyOf(c) == TaskOf(c).value + AfterTask(c.intent)
  {
    hide IntText, Suffix;
  }

  /** A key made without a task is never a task's key, as long as no owner name holds a colon. */
  lemma TasklessKeysApart(a: Call, b: Call)
    requires TaskOf(a).Some? && TaskOf(b).None? && ':' !in b.target.owner
    ensures KeyOf(a) != KeyOf(b)
  {
    hide AfterTask, IntText, Suffix;
    KeySplits(a);
    TagShows(a.intent);
    var n := |b.target.owner|;
    assert KeyOf(b)[n] == '/';
    assert KeyOf(a)[36] == ':';
    assert forall k | 0 <= k < 36 :: KeyOf(a)[k] in TaskOf(a).value;
    assert forall k | 0 <= k < n :: KeyOf(b)[k] == b.target.owner[k];
  }

  // ---------- the table ----------

  const OUTBOX_MAX_ATTEMPTS := 6

  datatype Status = Pending | Posted | Failed

  datatype Row = Row(call: Call, attempts: nat, status: Status)

  type Rows = map<string, Row>

  predicate Claimable(rows: Rows, key: string) {
    key in rows && rows[key].status == Pending
  }

  function Inserted(rows: Rows, c: Call): Rows {
    if KeyOf(c) in rows then rows else rows[KeyOf(c) := Row(c, 0, Pending)]
  }

  function AfterFailure(row: Row): Row {
    Row(row.call, row.attempts + 1, if row.attempts + 1 >= OUTBOX_MAX_ATTEMPTS then Failed else Pending)
  }

  /** The rows a prune may delete among those past their window: delivered and dead-lettered ones. */
  function Prunable(rows: Rows, expired: set<string>): set<string> {
    set k | k in rows && k in expired && rows[k].status != Pending
  }

  // ---------- every run ----------

  /** What the consumer managed to record of a delivery. */
  datatype Mark = AsPosted | AsFailed | Unmarked

  /**
   A producer's call; the single consumer's attempt to deliver a row it has claimed, which may have reached the
   platform whatever was recorded of it; or a prune.
   */
  datatype Event =
    | Produce(call: Call)
    | Attempt(key: string, landed: bool, mark: Mark)
    | Sweep(expired: set<string>)

  /** The table with counts, by key, of what has happened so far. */
  datatype State = State(
    rows: Rows, inserts: multiset<string>, posts: multiset<string>, unrecorded: multiset<string>,
    prunes: multiset<string>)

  const EMPTY := State(map[], multiset{}, multiset{}, multiset{}, multiset{})

  function Marked(row: Row, mark: Mark): Row {
    match mark
    case AsPosted => row.(status := Posted)
    case AsFailed => AfterFailure(row)
    case Unmarked => row
  }

  function Step(s: State, e: Event): State {
    match e
    case Produce(c) =>
      if KeyOf(c) in s.rows then s
      else s.(rows := Inserted(s.rows, c), inserts := s.inserts + multiset{KeyOf(c)})
    case Attempt(k, landed, mark) =>
      if !Claimable(s.rows, k) then s
      else s.(rows := s.rows[k := Marked(s.rows[k], mark)],
              posts := if landed then s.posts + multiset{k} else s.posts,
              unrecorded := if landed && mark != AsPosted then s.unrecorded + multiset{k} else s.unrecorded)
    case Sweep(expired) =>
      s.(rows := s.rows - Prunable(s.rows, expired), prunes := s.prunes + multiset(Prunable(s.rows, expired)))
  }

  function Run(events: seq<Event>): State {
    if events == [] then EMPTY else Step(Run(events[..|events| - 1]), events[|events| - 1])
  }

  lemma RunSnoc(events: seq<Event>, e: Event)
    ensures Run(events + [e]) == Step(Run(events), e)
  {
    assert (events + [e])[..|events|] == events;
  }

  // ---------- the table in place ----------

  /** What came of delivering a claimed row: an error or not, and whether the platform has it and the mark took. */
  datatype Delivery = Delivery(error: bool, landed: bool, marked: bool)

  function AttemptOf(key: string, d: Delivery): Event {
    Attempt(key, d.landed, if !d.marked then Unmarked else if d.error then AsFailed else AsPosted)
  }

  function AttemptsOf(batch: seq<string>, outcome: string -> Delivery): seq<Event> {
    seq(|batch|, i requires 0 <= i < |batch| => AttemptOf(batch[i], outcome(batch[i])))
  }

  function PostedIn(batch: seq<string>, outcome: string -> Delivery): nat {
    if batch == [] then 0
    else
      var d := outcome(batch[|batch| - 1]);
      PostedIn(batch[..|batch| - 1], outcome) + if !d.error && d.landed then 1 else 0
  }

  /** The table, with the history of what was done to it: its rows are always those of that history's run. */
  class Table {
    var rows: Rows
    ghost var events: seq<Event>

    ghost predicate Valid()
      reads this
    {
      rows == Run(events).rows
    }

    constructor ()
      ensures Valid() && events == []
    {
      rows, events := map[], [];
    }

    /** Insert a call's row unless its key is taken. */
    method Enqueue(c: Call) returns (inserted: bool)
      requires Valid()
      modifies this
      ensures Valid() && events == old(events) + [Produce(c)]
      ensures inserted <==> Run(events).inserts[KeyOf(c)] == Run(old(events)).inserts[KeyOf(c)] + 1
    {
      hide KeyOf, Run;
      RunSnoc(events, Produce(c));
      events := events + [Produce(c)];
      var key := KeyOf(c);
      inserted := key !in rows;
      if inserted {
        rows := rows[key := Row(c, 0, Pending)];
      }
    }

    /** Every row that is due and undelivered. */
    method ClaimBatch(due: set<string>) returns (claimed: set<string>)
      ensures forall k :: k in claimed <==> k in due && Claimable(rows, k)
    {
      claimed := set k | k in due && Claimable(rows, k);
    }

    /** Record that a claimed row was delivered; a delivery skipped by the platform counts as recorded too. */
    method MarkPosted(key: string, ghost landed: bool)
      requires Valid() && Claimable(rows, key)
      modifies this
      ensures Valid() && events == old(events) + [Attempt(key, landed, AsPosted)]
      ensures rows.Keys == old(rows).Keys && forall k | k in rows && k != key :: rows[k] == old(rows)[k]
    {
      hide Run;
      RunSnoc(events, Attempt(key, landed, AsPosted));
      events := events + [Attempt(key, landed, AsPosted)];
      rows := rows[key := rows[key].(status := Posted)];
    }

    /** Record a failed delivery of a claimed row: back off, or give up at the last attempt. */
    method MarkFailed(key: string, ghost landed: bool)
      requires Valid() && Claimable(rows, key)
      modifies this
      ensures Valid() && events == old(events) + [Attempt(key, landed, AsFailed)]
      ensures rows.Keys == old(rows).Keys && forall k | k in rows && k != key :: rows[k] == old(rows)[k]
    {
      hide Run;
      RunSnoc(events, Attempt(key, landed, AsFailed));
      events := events + [Attempt(key, landed, AsFailed)];
      var attempts := rows[key].attempts + 1;
      var status := if attempts >= OUTBOX_MAX_ATTEMPTS then Failed else Pending;
      rows := rows[key := Row(rows[key].call, attempts, status)];
    }

    /** The record of a delivery was lost: the row stays as it was. */
    ghost method LoseMark(key: string, landed: bool)
      requires Valid() && Claimable(rows, key)
      modifies this`events
      ensures Valid() && events == old(events) + [Attempt(key, landed, Unmarked)]
    {
      hide Run;
      RunSnoc(events, Attempt(key, landed, Unmarked));
      events := events + [Attempt(key, landed, Unmarked)];
      assert rows[key := rows[key]] == rows;
    }

    /** Deliver a claimed batch row by row, recording what comes of each. */
    method DrainOnce(batch: seq<string>, outcome: string -> Delivery) returns (posted: nat)
      requires Valid()
      requires forall k | k in batch :: Claimable(rows, k)
      requires forall i, j | 0 <= i < j < |batch| :: batch[i] != batch[j]
      modifies this
      ensures Valid() && events == old(events) + AttemptsOf(batch, outcome)
      ensures posted == PostedIn(batch, outcome)
    {
      hide Run;
      posted := 0;
      for i := 0 to |batch|
        invariant Valid() && events == old(events) + AttemptsOf(batch[..i], outcome)
        invariant posted == PostedIn(batch[..i], outcome)
        invariant forall j | i <= j < |batch| :: Claimable(rows, batch[j])
      {
        var d := outcome(batch[i]);
        assert AttemptsOf(batch[..i + 1], outcome) == AttemptsOf(batch[..i], outcome) + [AttemptOf(batch[i], d)];
        assert batch[..i + 1][..i] == batch[..i];
        if !d.marked {
          LoseMark(batch[i], d.landed);
        } else if d.error {
          MarkFailed(batch[i], d.landed);
        } else {
          MarkPosted(batch[i], d.landed);
        }
        if !d.error && d.landed {
          posted := posted + 1;
        }
      }
      assert batch[..|batch|] == batch;
    }

    /** Delete the expired rows that were delivered or parked. */
    method Prune(expired: set<string>)
      requires Valid()
      modifies this
      ensures Valid() && events == old(events) + [Sweep(expired)]
      ensures forall k | k in old(rows) && old(rows)[k].status == Pending :: k in rows && rows[k] == old(rows)[k]
    {
      hide Run;
      RunSnoc(events, Sweep(expired));
      events := events + [Sweep(expired)];
      rows := rows - set k | k in rows && k in expired && rows[k].status != Pending;
    }
  }

  function One(b: bool): nat {
    if b then 1 else 0
  }

  /** What every run keeps for key `k`. */
  ghost predicate KeyInvariant(s: State, k: string) {
    && s.inserts[k] == s.prunes[k] + One(k in s.rows)
    && s.posts[k] + One(k in s.rows && s.rows[k].status != Posted) <= s.inserts[k] + s.unrecorded[k]
    && (k in s.rows ==>
          && KeyOf(s.rows[k].call) == k
          && (s.rows[k].status == Pending ==> s.rows[k].attempts < 6)
          && (s.rows[k].status == Failed ==> s.rows[k].attempts == 6))
  }

  lemma StepKeeps(s: State, e: Event, k: string)
    requires KeyInvariant(s, k)
    ensures KeyInvariant(Step(s, e), k)
  {
    hide KeyOf;
  }

  /**
   A key's intent reaches the platform at most once, plus once for each delivery whose record was lost and once for
   each time its row was pruned and inserted again; a row is tried at most six times without success.
   */
  lemma {:induction false} PostsBounded(events: seq<Event>, k: string)
    ensures KeyInvariant(Run(events), k)
    ensures Run(events).posts[k] <= 1 + Run(events).unrecorded[k] + Run(events).prunes[k]
  {
    hide Step;
    if events != [] {
      PostsBounded(events[..|events| - 1], k);
      StepKeeps(Run(events[..|events| - 1]), events[|events| - 1], k);
    }
  }

  // ---------- what the table says about its history ----------

  /** Event `j` is an attempt to deliver the row of `k`, which was there to be claimed. */
  predicate Attempted(events: seq<Event>, j: nat, k: string) {
    j < |events| && events[j].Attempt? && events[j].key == k && Claimable(Run(events[..j]).rows, k)
  }

  /** That attempt reached the platform. */
  predicate LandedAt(events: seq<Event>, j: nat, k: string) {
    Attempted(events, j, k) && events[j].landed
  }

  predicate LostAt(events: seq<Event>, j: nat, k: string) {
    LandedAt(events, j, k) && events[j].mark != AsPosted
  }

  /** That attempt was recorded as failed. */
  predicate FailedAt(events: seq<Event>, j: nat, k: string) {
    Attempted(events, j, k) && events[j].mark == AsFailed
  }

  predicate DeliveredAt(events: seq<Event>, j: nat, k: string) {
    Attempted(events, j, k) && events[j].mark == AsPosted
  }

  predicate InsertedAt(events: seq<Event>, j: nat, k: string) {
    j < |events| && events[j].Produce? && KeyOf(events[j].call) == k && k !in Run(events[..j]).rows
  }

  predicate RemovedAt(events: seq<Event>, j: nat, k: string) {
    j < |events| && events[j].Sweep? && k in Run(events[..j]).rows && k !in Run(events[..j + 1]).rows
  }

  /** At how many of the first `n` positions this is so. */
  function Times(n: nat, such: nat -> bool): nat {
    if n == 0 then 0 else Times(n - 1, such) + One(such(n - 1))
  }

  lemma {:induction false} TimesSame(n: nat, p: nat -> bool, q: nat -> bool)
    requires forall j: nat | j < n :: p(j) == q(j)
    ensures Times(n, p) == Times(n, q)
  {
    if n > 0 {
      TimesSame(n - 1, p, q);
    }
  }

  lemma SameBefore(front: seq<Event>, last: Event, k: string)
    ensures forall j: nat | j < |front| :: var events := front + [last];
      && events[j] == front[j]
      && LandedAt(events, j, k) == LandedAt(front, j, k) && LostAt(events, j, k) == LostAt(front, j, k)
      && FailedAt(events, j, k) == FailedAt(front, j, k) && DeliveredAt(events, j, k) == DeliveredAt(front, j, k)
      && InsertedAt(events, j, k) == InsertedAt(front, j, k)
      && RemovedAt(events, j, k) == RemovedAt(front, j, k)
  {
    hide Run, KeyOf;
    var events := front + [last];
    forall j: nat | j < |front|
      ensures Attempted(events, j, k) == Attempted(front, j, k) && InsertedAt(events, j, k) == InsertedAt(front, j, k)
        && RemovedAt(events, j, k) == RemovedAt(front, j, k)
    {
      assert events[..j] == front[..j] && events[..j + 1] == front[..j + 1];
    }
  }

  /** The counts of a run count its events: inserts, attempts that landed, those not recorded as landed, removals. */
  lemma {:induction false} CountsAreEvents(events: seq<Event>, k: string)
    ensures var s, n := Run(events), |events|;
      && s.inserts[k] == Times(n, (j: nat) => InsertedAt(events, j, k))
      && s.posts[k] == Times(n, (j: nat) => LandedAt(events, j, k))
      && s.unrecorded[k] == Times(n, (j: nat) => LostAt(events, j, k))
      && s.prunes[k] == Times(n, (j: nat) => RemovedAt(events, j, k))
  {
    hide KeyOf, LandedAt, LostAt, InsertedAt, RemovedAt;
    if events != [] {
      var n, front, last := |events| - 1, events[..|events| - 1], events[|events| - 1];
      assert events == front + [last];
      CountsAreEvents(front, k);
      SameBefore(front, last, k);
      TimesSame(n, (j: nat) => InsertedAt(events, j, k), (j: nat) => InsertedAt(front, j, k));
      TimesSame(n, (j: nat) => LandedAt(events, j, k), (j: nat) => LandedAt(front, j, k));
      TimesSame(n, (j: nat) => LostAt(events, j, k), (j: nat) => LostAt(front, j, k));
      TimesSame(n, (j: nat) => RemovedAt(events, j, k), (j: nat) => RemovedAt(front, j, k));
      CountsStep(front, last, k);
    }
  }

  lemma CountsStep(front: seq<Event>, last: Event, k: string)
    ensures var events, n := front + [last], |front|;
      var s, t := Run(front), Run(events);
      && t.inserts[k] == s.inserts[k] + One(InsertedAt(events, n, k))
      && t.posts[k] == s.posts[k] + One(LandedAt(events, n, k))
      && t.unrecorded[k] == s.unrecorded[k] + One(LostAt(events, n, k))
      && t.prunes[k] == s.prunes[k] + One(RemovedAt(events, n, k))
  {
    hide KeyOf, Run;
    RunSnoc(front, last);
    var events, n := front + [last], |front|;
    assert events[..n] == front && events[..n + 1] == events && events[n] == last;
    match last
    case Produce(_) => assert !LandedAt(events, n, k) && !RemovedAt(events, n, k);
    case Attempt(_, _, _) => assert !InsertedAt(events, n, k) && !RemovedAt(events, n, k);
    case Sweep(_) => assert !InsertedAt(events, n, k) && !LandedAt(events, n, k);
  }

  /** How often a delivery of `k` was recorded as failed since event `i`. */
  function FailuresSince(events: seq<Event>, i: nat, k: string): nat {
    if |events| <= i + 1 then 0
    else FailuresSince(events[..|events| - 1], i, k) + One(FailedAt(events, |events| - 1, k))
  }

  /** Whether one was recorded as made. */
  predicate DeliveredSince(events: seq<Event>, i: nat, k: string) {
    exists j | i < j < |events| :: DeliveredAt(events, j, k)
  }

  /**
   The row of `k` was inserted by event `i` and has stood since; its call, its attempts and its status tell the rest.
   */
  ghost predicate RowOf(events: seq<Event>, i: nat, k: string) {
    && k in Run(events).rows && InsertedAt(events, i, k)
    && (forall j: nat | i < j :: !RemovedAt(events, j, k))
    && var row := Run(events).rows[k];
       && row.call == events[i].call
       && row.attempts == FailuresSince(events, i, k)
       && (row.status == Posted <==> DeliveredSince(events, i, k))
       && (row.status == Failed <==> FailuresSince(events, i, k) >= 6)
  }

  /**
   What a row says. Since its insert nothing has removed it; its call is the one inserted; its attempts are the
   deliveries recorded as failed since then; it is delivered exactly when one was recorded as made, and given up
   exactly when six failed.
   */
  lemma {:induction false} RowTells(events: seq<Event>, k: string)
    requires k in Run(events).rows
    ensures exists i: nat :: RowOf(events, i, k)
  {
    hide KeyOf, RowOf;
    var front, last := events[..|events| - 1], events[|events| - 1];
    assert events == front + [last];
    if k in Run(front).rows {
      RowTells(front, k);
      var i: nat :| RowOf(front, i, k);
      RowGoesOn(front, last, i, k);
    } else {
      RowArrives(front, last, k);
    }
  }

  lemma RowGoesOn(front: seq<Event>, last: Event, i: nat, k: string)
    requires RowOf(front, i, k) && k in Run(front + [last]).rows
    ensures RowOf(front + [last], i, k)
  {
    hide KeyOf, Run, FailedAt, DeliveredAt, InsertedAt, RemovedAt, DeliveredSince, FailuresSince;
    var events := front + [last];
    SameBefore(front, last, k);
    StaysInserted(front, i, k);
    FailuresPush(front, last, i, k);
    DeliveredPush(front, last, i, k);
    RowStep(front, last, k);
    NotYetRemoved(front, last, k);
    assert InsertedAt(events, i, k);
    assert forall j: nat | i < j :: !RemovedAt(events, j, k);
  }

  lemma FailuresPush(front: seq<Event>, last: Event, i: nat, k: string)
    requires i < |front|
    ensures FailuresSince(front + [last], i, k)
      == FailuresSince(front, i, k) + One(FailedAt(front + [last], |front|, k))
  {
    hide FailedAt;
    assert (front + [last])[..|front|] == front;
  }

  lemma StaysInserted(front: seq<Event>, i: nat, k: string)
    requires InsertedAt(front, i, k)
    ensures i < |front|
  {
  }

  lemma NotYetRemoved(front: seq<Event>, last: Event, k: string)
    requires k in Run(front + [last]).rows
    ensures forall j: nat | j >= |front| :: !RemovedAt(front + [last], j, k)
  {
    hide Run;
    assert (front + [last])[..|front| + 1] == front + [last];
  }

  lemma DeliveredPush(front: seq<Event>, last: Event, i: nat, k: string)
    requires i < |front|
    ensures DeliveredSince(front + [last], i, k)
      <==> DeliveredSince(front, i, k) || DeliveredAt(front + [last], |front|, k)
  {
    hide DeliveredAt;
    SameBefore(front, last, k);
  }

  /** What the last event does to a row that stood before it and stands after. */
  lemma RowStep(front: seq<Event>, last: Event, k: string)
    requires k in Run(front).rows && k in Run(front + [last]).rows
    ensures var before, row := Run(front).rows[k], Run(front + [last]).rows[k];
      var failed, delivered := FailedAt(front + [last], |front|, k), DeliveredAt(front + [last], |front|, k);
      && row.call == before.call && !(failed && delivered) && (failed || delivered ==> before.status == Pending)
      && row.attempts == before.attempts + One(failed)
      && row.status == if delivered then Posted
                       else if failed then if row.attempts >= 6 then Failed else Pending
                       else before.status
  {
    hide Run, KeyOf;
    RunSnoc(front, last);
    assert (front + [last])[..|front|] == front;
  }

  lemma RowArrives(front: seq<Event>, last: Event, k: string)
    requires k !in Run(front).rows && k in Run(front + [last]).rows
    ensures RowOf(front + [last], |front|, k)
  {
    hide Run, KeyOf;
    RunSnoc(front, last);
    assert (front + [last])[..|front|] == front;
  }

  /** A sweep takes a row away exactly when it is past its window and delivered, or given up after six failures. */
  lemma SweptIff(events: seq<Event>, k: string, i: nat, expired: set<string>)
    requires RowOf(events, i, k)
    ensures k !in Run(events + [Sweep(expired)]).rows
      <==> k in expired && (DeliveredSince(events, i, k) || FailuresSince(events, i, k) >= 6)
  {
    hide Run, KeyOf, FailuresSince, DeliveredSince;
    RunSnoc(events, Sweep(expired));
  }

  // ---------- tasks and slots ----------

  predicate ForTask(c: Call) {
    TaskOf(c).Some?
  }

  /**
   At any moment a task has at most one row per slot: one review, one reply, one verdict, one per epoch, and so on.
   */
  lemma OneRowPerSlot(events: seq<Event>, k: string, l: string)
    requires k in Run(events).rows && l in Run(events).rows
    requires var c, d := Run(events).rows[k].call, Run(events).rows[l].call;
      ForTask(c) && TaskOf(c) == TaskOf(d) && SameSlot(c.intent, d.intent)
    ensures k == l
  {
    hide KeyOf, SameSlot, Run;
    PostsBounded(events, k);
    PostsBounded(events, l);
    TaskKeysInjective(Run(events).rows[k].call, Run(events).rows[l].call);
  }

  /** A retry after its delivered row was pruned is inserted and posted again. */
  lemma RetryAfterPrunePostsAgain(c: Call)
    ensures var k := KeyOf(c);
      Run([Produce(c), Attempt(k, true, AsPosted), Sweep({k}), Produce(c), Attempt(k, true, AsPosted)]).posts[k] == 2
  {
    hide KeyOf, Run, Step;
    var k := KeyOf(c);
    NothingRun();
    RunSnoc([], Produce(c));
    RunSnoc([Produce(c)], Attempt(k, true, AsPosted));
    RunSnoc([Produce(c), Attempt(k, true, AsPosted)], Sweep({k}));
    RunSnoc([Produce(c), Attempt(k, true, AsPosted), Sweep({k})], Produce(c));
    RunSnoc([Produce(c), Attempt(k, true, AsPosted), Sweep({k}), Produce(c)], Attempt(k, true, AsPosted));
    assert [] + [Produce(c)] == [Produce(c)];
    assert [Produce(c)] + [Attempt(k, true, AsPosted)] == [Produce(c), Attempt(k, true, AsPosted)];
    assert [Produce(c), Attempt(k, true, AsPosted)] + [Sweep({k})]
      == [Produce(c), Attempt(k, true, AsPosted), Sweep({k})];
    assert [Produce(c), Attempt(k, true, AsPosted), Sweep({k})] + [Produce(c)]
      == [Produce(c), Attempt(k, true, AsPosted), Sweep({k}), Produce(c)];
    assert [Produce(c), Attempt(k, true, AsPosted), Sweep({k}), Produce(c)] + [Attempt(k, true, AsPosted)]
      == [Produce(c), Attempt(k, true, AsPosted), Sweep({k}), Produce(c), Attempt(k, true, AsPosted)];
    InsertAndPost(EMPTY, c);
    var delivered := Step(Step(EMPTY, Produce(c)), Attempt(k, true, AsPosted));
    SweepFrees(delivered, k);
    InsertAndPost(Step(delivered, Sweep({k})), c);
  }

  lemma NothingRun()
    ensures Run([]) == EMPTY
  {
  }

  lemma InsertAndPost(s: State, c: Call)
    requires KeyOf(c) !in s.rows
    ensures var t := Step(Step(s, Produce(c)), Attempt(KeyOf(c), true, AsPosted));
      KeyOf(c) in t.rows && t.rows[KeyOf(c)].status == Posted && t.posts[KeyOf(c)] == s.posts[KeyOf(c)] + 1
  {
    hide KeyOf;
  }

  lemma SweepFrees(s: State, k: string)
    requires k in s.rows && s.rows[k].status == Posted
    ensures k !in Step(s, Sweep({k})).rows && Step(s, Sweep({k})).posts == s.posts
  {
  }

  // ---------- inserted once, exactly when ----------

  /** Some prune removed the key's row. */
  predicate EverSwept(events: seq<Event>, k: string) {
    events != [] &&
    var front, last := events[..|events| - 1], events[|events| - 1];
    || EverSwept(front, k)
    || (last.Sweep? && k in Prunable(Run(front).rows, last.expired))
  }

  /** A call with the key came after a prune that removed its row. */
  predicate MadeAfterSweep(events: seq<Event>, k: string) {
    events != [] &&
    var front, last := events[..|events| - 1], events[|events| - 1];
    || MadeAfterSweep(front, k)
    || (EverSwept(front, k) && last.Produce? && KeyOf(last.call) == k)
  }

  lemma StepInserts(s: State, e: Event, k: string)
    ensures var t := Step(s, e);
      && t.inserts[k] == s.inserts[k] + One(e.Produce? && KeyOf(e.call) == k && k !in s.rows)
      && (k in t.rows <==>
            || (k in s.rows && !(e.Sweep? && k in Prunable(s.rows, e.expired)))
            || (e.Produce? && KeyOf(e.call) == k))
  {
    hide KeyOf;
  }

  lemma {:induction false} InsertHistory(events: seq<Event>, k: string)
    ensures var s := Run(events);
      && (!EverSwept(events, k) ==> s.inserts[k] == One(k in s.rows) && !MadeAfterSweep(events, k))
      && (EverSwept(events, k) && !MadeAfterSweep(events, k) ==> s.inserts[k] == 1 && k !in s.rows)
      && (MadeAfterSweep(events, k) ==> s.inserts[k] >= 2)
  {
    hide KeyOf, Step;
    if events != [] {
      var front, last := events[..|events| - 1], events[|events| - 1];
      InsertHistory(front, k);
      StepInserts(Run(front), last, k);
    }
  }

  /** A key is inserted at most once if and only if no call with it comes after a prune that removed its row. */
  lemma InsertedOnceIff(events: seq<Event>, k: string)
    ensures Run(events).inserts[k] <= 1 <==> !MadeAfterSweep(events, k)
  {
    hide Run, EverSwept, MadeAfterSweep;
    InsertHistory(events, k);
  }

  /** Without any prune, a retry is never inserted again, and its intent is posted once but for lost records. */
  lemma {:induction false} InsertedOnceUnpruned(events: seq<Event>, k: string)
    requires NeverPruned(events)
    ensures Run(events).inserts[k] <= 1 && Run(events).posts[k] <= 1 + Run(events).unrecorded[k]
  {
    hide Run, KeyOf;
    NeverSwept(events, k);
    InsertedOnceIff(events, k);
    PostsBounded(events, k);
  }

  lemma {:induction false} NeverSwept(events: seq<Event>, k: string)
    requires NeverPruned(events)
    ensures !EverSwept(events, k) && !MadeAfterSweep(events, k)
  {
    hide Run, KeyOf;
    if events != [] {
      NeverSwept(events[..|events| - 1], k);
    }
  }

  // ---------- the first payload stays, and whose it is ----------

  predicate NeverPruned(events: seq<Event>) {
    forall e | e in events :: !e.Sweep?
  }

  /** The first call with key `k`. */
  function FirstCall(events: seq<Event>, k: string): Option<Call> {
    if events == [] then None
    else
      var front, last := FirstCall(events[..|events| - 1], k), events[|events| - 1];
      if front.None? && last.Produce? && KeyOf(last.call) == k then Some(last.call) else front
  }

  /** Without pruning, a step adds a row only for a new key, and touches no row's call. */
  lemma StepKeepsCall(s: State, e: Event, k: string)
    requires !e.Sweep?
    ensures k in s.rows ==> k in Step(s, e).rows && Step(s, e).rows[k].call == s.rows[k].call
    ensures k !in s.rows ==>
      if e.Produce? && KeyOf(e.call) == k then k in Step(s, e).rows && Step(s, e).rows[k].call == e.call
      else k !in Step(s, e).rows
  {
    hide KeyOf;
  }

  /** Without pruning, a key's row keeps the first call made with it, whatever is retried. */
  lemma {:induction false} FirstPayloadStays(events: seq<Event>, k: string)
    requires NeverPruned(events)
    ensures (k in Run(events).rows) == FirstCall(events, k).Some?
    ensures k in Run(events).rows ==> Run(events).rows[k].call == FirstCall(events, k).value
  {
    hide KeyOf, Step;
    if events != [] {
      var front, last := events[..|events| - 1], events[|events| - 1];
      assert events == front + [last];
      FirstPayloadStays(front, k);
      StepKeepsCall(Run(front), last, k);
    }
  }

  predicate Produced(events: seq<Event>, c: Call) {
    Produce(c) in events
  }

  lemma {:induction false} FirstCallIsProduced(events: seq<Event>, k: string)
    ensures FirstCall(events, k).Some? ==>
      Produced(events, FirstCall(events, k).value) && KeyOf(FirstCall(events, k).value) == k
    ensures forall c | Produced(events, c) && KeyOf(c) == k :: FirstCall(events, k).Some?
  {
    hide KeyOf;
    if events != [] {
      var front, last := events[..|events| - 1], events[|events| - 1];
      FirstCallIsProduced(front, k);
      assert events == front + [last];
    }
  }

  // ---------- what swallows a call ----------

  /** Call `n` of the run is for a task, and finds its key taken by a row of a different intent. */
  predicate Swallowed(events: seq<Event>, n: nat) {
    && n < |events| && events[n].Produce? && ForTask(events[n].call)
    && KeyOf(events[n].call) in Run(events[..n]).rows
    && Run(events[..n]).rows[KeyOf(events[n].call)].call.intent != events[n].call.intent
  }

  /** Call `m` was inserted, and no prune has removed its row before event `n`. */
  ghost predicate Stands(events: seq<Event>, m: nat, n: nat) {
    && m < n <= |events| && events[m].Produce?
    && KeyOf(events[m].call) !in Run(events[..m]).rows
    && forall t | m < t < n && events[t].Sweep? ::
         KeyOf(events[m].call) !in Prunable(Run(events[..t]).rows, events[t].expired)
  }

  /** One task's verdict and its lifecycle reaction whose content is "verdict". */
  predicate Clash(c: Call, d: Call) {
    ForTask(c) && TaskOf(c) == TaskOf(d) && c.intent == VerdictReaction && d.intent == Reaction("verdict")
  }

  lemma StepCalls(s: State, e: Event, k: string)
    ensures var t := Step(s, e);
      && (k in t.rows ==>
            if k in s.rows then t.rows[k].call == s.rows[k].call && !(e.Sweep? && k in Prunable(s.rows, e.expired))
            else e.Produce? && KeyOf(e.call) == k && t.rows[k].call == e.call)
      && (k in s.rows && k !in t.rows ==> e.Sweep? && k in Prunable(s.rows, e.expired))
      && (e.Produce? && KeyOf(e.call) == k ==> k in t.rows)
  {
    hide KeyOf;
  }

  /** A row's call is that of the insert it stands from. */
  lemma {:induction false} RowStands(events: seq<Event>, n: nat, k: string) returns (m: nat)
    requires n <= |events| && k in Run(events[..n]).rows
    ensures Stands(events, m, n) && KeyOf(events[m].call) == k && Run(events[..n]).rows[k].call == events[m].call
    decreases n
  {
    hide KeyOf, Step, Prunable;
    assert n > 0;
    assert events[..n][..n - 1] == events[..n - 1];
    var before, e := Run(events[..n - 1]), events[n - 1];
    StepCalls(before, e, k);
    if k in before.rows {
      m := RowStands(events, n - 1, k);
    } else {
      m := n - 1;
    }
  }

  lemma {:induction false} StandingRow(events: seq<Event>, m: nat, n: nat)
    requires Stands(events, m, n)
    ensures var k := KeyOf(events[m].call);
      k in Run(events[..n]).rows && Run(events[..n]).rows[k].call == events[m].call
    decreases n
  {
    hide KeyOf, Step, Prunable;
    assert events[..n][..n - 1] == events[..n - 1];
    StepCalls(Run(events[..n - 1]), events[n - 1], KeyOf(events[m].call));
    if m < n - 1 {
      StandingRow(events, m, n - 1);
    }
  }

  /** Two calls for one task have one key and two intents exactly when they clash. */
  lemma ClashesIff(c: Call, d: Call)
    requires ForTask(c) && ':' !in d.target.owner
    ensures KeyOf(c) == KeyOf(d) && c.intent != d.intent <==> Clash(c, d) || Clash(d, c)
  {
    hide KeyOf;
    if TaskOf(d).None? {
      TasklessKeysApart(c, d);
    } else {
      TaskKeysInjective(c, d);
    }
  }

  /** Call `m` was inserted, still stands at event `n`, and clashes with the call made there. */
  ghost predicate ClashStands(events: seq<Event>, m: nat, n: nat) {
    && n < |events| && events[n].Produce? && Stands(events, m, n)
    && (Clash(events[m].call, events[n].call) || Clash(events[n].call, events[m].call))
  }

  /**
   In any run, prunes and retries included, a task's call is swallowed by a row of a different intent if and only if
   it comes while the row of a call it clashes with stands.
   */
  lemma SwallowedIff(events: seq<Event>, n: nat)
    requires n < |events| && events[n].Produce? && ForTask(events[n].call)
    requires forall c | Produced(events, c) :: ':' !in c.target.owner
    ensures Swallowed(events, n) <==> exists m: nat :: ClashStands(events, m, n)
  {
    hide KeyOf, Run, Clash, Prunable;
    var c := events[n].call;
    forall m: nat | ClashStands(events, m, n) ensures Swallowed(events, n) {
      StandingRow(events, m, n);
      assert events[m] in events && Produced(events, events[m].call);
      ClashesIff(c, events[m].call);
    }
    if Swallowed(events, n) {
      var m := RowStands(events, n, KeyOf(c));
      assert events[m] in events && Produced(events, events[m].call);
      ClashesIff(c, events[m].call);
      assert ClashStands(events, m, n);
    }
  }

  /** So only a run in which some task is given both a verdict and a reaction named "verdict" swallows any call. */
  lemma ClashFreeSwallowsNothing(events: seq<Event>, n: nat)
    requires forall c | Produced(events, c) :: ':' !in c.target.owner
    ensures Swallowed(events, n) ==> VerdictClash(events)
  {
    hide KeyOf, Run, Clash, Prunable;
    if Swallowed(events, n) {
      SwallowedIff(events, n);
      var m: nat :| ClashStands(events, m, n);
      assert events[m] in events && events[n] in events;
      assert Produced(events, events[m].call) && Produced(events, events[n].call);
    }
  }

  /** A call made for a task has a row of its own intent. */
  ghost predicate Represented(events: seq<Event>, c: Call) {
    && KeyOf(c) in Run(events).rows
    && Run(events).rows[KeyOf(c)].call.intent == c.intent
  }

  /** A task was given both a verdict and a lifecycle reaction whose content is "verdict". */
  ghost predicate VerdictClash(events: seq<Event>) {
    exists c, d :: Produced(events, c) && Produced(events, d) && Clash(c, d)
  }

  /** Without prunes, every task call keeps a row of its own intent exactly when no task's two verdicts meet. */
  lemma NothingSwallowedIff(events: seq<Event>)
    requires NeverPruned(events)
    requires forall c | Produced(events, c) :: ':' !in c.target.owner
    ensures (forall c | Produced(events, c) && ForTask(c) :: Represented(events, c)) <==> !VerdictClash(events)
  {
    hide KeyOf, Run, FirstCall;
    if c, d :| Produced(events, c) && Produced(events, d) && Clash(c, d) {
      TaskKeysInjective(c, d);
    } else {
      forall c | Produced(events, c) && ForTask(c) ensures Represented(events, c) {
        var k := KeyOf(c);
        FirstPayloadStays(events, k);
        FirstCallIsProduced(events, k);
        ClashesIff(c, FirstCall(events, k).value);
      }
    }
  }
}
