/**
  `read_queue` (claude-monitor-codex/src/lib.rs): the complete native queue, or nothing.

  The method runs against a timeline. At moment `t` the gateway's state looks like `view(t)`; a
  `thread/queue/list` call sent at moment `t` has its answer `answer(t, cursor)` before moment
  `t + 1`. Nothing is assumed of either. `ReadOf` is the read as a function of the timeline; what it
  returns when the server notifies its changes, and the gateway's stamps tell of them, is proved
  here. When the stamps do tell is a matter of the shared state and the worker: see QueueIsolation.
*/
module QueueSnapshot {
  import opened Wrappers

  const QUEUE_PAGE_LIMIT: nat := 25
  const QUEUE_MAX_PAGES: nat := 100
  const QUEUE_MAX_BYTES: nat := 64 * 1024 * 1024
  const ATTEMPTS: nat := 4

  datatype Entry = Entry(submission: Name, client: Name, typed: bool)

  /** `usable`: a nonempty string of at most 4096 bytes without NUL. `Odd`: no string at all. */
  datatype Cursor = End | At(cursor: Name, usable: bool) | Odd

  datatype Page = Page(data: Option<seq<Entry>>, bytes: nat, next: Cursor)

  /** The facts `current` looks at; a fence of 0 is an absent map entry. */
  datatype View = View(
    connected: bool, epoch: nat, sequence: nat, scopeClosed: bool, archived: bool,
    scopeChange: nat, access: nat, queueStamp: Option<nat>)

  datatype Timeline = Timeline(view: nat -> View, answer: (nat, Option<Name>) -> Result<Page, Failure>)

  datatype QueueRead = QueueRead(entries: seq<Entry>, epoch: nat, after: nat, queueStamp: Option<nat>)

  datatype ReadError =
    | Invalid
    | ConnectionChanged
    | AccessChanged
    | CallFailed(failure: Failure)
    | BadPage(page: nat)
    | KeptChanging

  /** `QueueRead::current`: Ok(false) asks for a new attempt. */
  function Current(q: QueueRead, v: View): Result<bool, ReadError> {
    if !v.connected || v.epoch != q.epoch then Err(ConnectionChanged)
    else if v.scopeClosed || v.archived || v.scopeChange > q.after || v.access > q.after then Err(AccessChanged)
    else Ok(v.queueStamp == q.queueStamp)
  }

  predicate EntryValid(e: Entry) {
    e.submission != NO_NAME && e.client != NO_NAME && e.typed
  }

  function Ids(entries: seq<Entry>): set<Name> {
    set e | e in entries :: e.submission
  }

  ghost predicate DistinctIds(entries: seq<Entry>) {
    forall i, j :: 0 <= i < j < |entries| ==> entries[i].submission != entries[j].submission
  }

  ghost predicate AllValid(entries: seq<Entry>) {
    forall k :: 0 <= k < |entries| ==> EntryValid(entries[k])
  }

  // ---------------------------------------------------------------------------------------
  // The read as a function.

  /** What one attempt found: the whole queue, a change, or an error. */
  datatype Attempt = Whole(queue: QueueRead) | Changed | Broken(error: ReadError)

  /** An attempt before page `page`, at moment `now`. */
  datatype Progress = Progress(
    queue: QueueRead, cursor: Option<Name>, cursors: set<Name>, bytes: nat, page: nat, now: nat)

  datatype Found = Found(attempt: Attempt, now: nat)

  datatype Step = Stop(found: Found) | More(progress: Progress)

  datatype Outcome = Outcome(result: Result<QueueRead, ReadError>, now: nat)

  /** The entries of a page can be appended: all valid, and no submission repeats. */
  ghost predicate Fits(entries: seq<Entry>, data: seq<Entry>) {
    AllValid(data) && DistinctIds(entries + data)
  }

  /** A page that arrived under an unchanged stamp. */
  ghost function Examine(p: Progress, reply: Page): Step {
    var bad := Stop(Found(Broken(BadPage(p.page)), p.now));
    var bytes := p.bytes + reply.bytes;
    if bytes > QUEUE_MAX_BYTES || reply.data.None? || |reply.data.value| > QUEUE_PAGE_LIMIT
       || !Fits(p.queue.entries, reply.data.value) then bad
    else
      var queue := p.queue.(entries := p.queue.entries + reply.data.value);
      match reply.next
      case End => Stop(Found(Whole(queue), p.now))
      case At(next, usable) =>
        if !usable || next in p.cursors then bad
        else More(Progress(queue, Some(next), p.cursors + {next}, bytes, p.page + 1, p.now))
      case Odd => bad
  }

  /** One page: a look, a call, another look, and the page's own checks. */
  ghost function TurnPage(w: Timeline, p: Progress): (r: Step)
    ensures r.More? ==> r.progress.page == p.page + 1
  {
    var before := Current(p.queue, w.view(p.now));
    if before.Err? then Stop(Found(Broken(before.error), p.now + 1))
    else if !before.value then Stop(Found(Changed, p.now + 1))
    else
      var answer := w.answer(p.now + 1, p.cursor);
      if answer.Err? then Stop(Found(Broken(CallFailed(answer.error)), p.now + 2))
      else
        var after := Current(p.queue, w.view(p.now + 2));
        if after.Err? then Stop(Found(Broken(after.error), p.now + 3))
        else if !after.value then Stop(Found(Changed, p.now + 3))
        else Examine(p.(now := p.now + 3), answer.value)
  }

  ghost function PagesFrom(w: Timeline, p: Progress): Found
    decreases QUEUE_MAX_PAGES + 1 - p.page
  {
    if p.page > QUEUE_MAX_PAGES then Found(Broken(BadPage(QUEUE_MAX_PAGES)), p.now)
    else
      match TurnPage(w, p)
      case Stop(found) => found
      case More(next) => PagesFrom(w, next)
  }

  /** The stamp an attempt begins with is the one it looks at first. */
  function Begin(w: Timeline, start: nat, epoch: nat, after: nat): Progress {
    Progress(QueueRead([], epoch, after, w.view(start).queueStamp), None, {}, 0, 1, start + 1)
  }

  ghost function AttemptOf(w: Timeline, start: nat, epoch: nat, after: nat): Found {
    var p := Begin(w, start, epoch, after);
    var first := Current(p.queue, w.view(start));
    if first.Err? then Found(Broken(first.error), start + 1) else PagesFrom(w, p)
  }

  ghost function AttemptsFrom(w: Timeline, attempt: nat, now: nat, epoch: nat, after: nat): Outcome
    decreases ATTEMPTS - attempt
  {
    if attempt >= ATTEMPTS then Outcome(Err(KeptChanging), now)
    else
      var found := AttemptOf(w, now, epoch, after);
      match found.attempt
      case Whole(queue) => Outcome(Ok(queue), found.now)
      case Broken(error) => Outcome(Err(error), found.now)
      case Changed => AttemptsFrom(w, attempt + 1, found.now, epoch, after)
  }

  ghost function ReadOf(w: Timeline, start: nat, validThread: bool): Outcome {
    var first := w.view(start);
    var unread := Current(QueueRead([], first.epoch, first.sequence, first.queueStamp), first);
    if !validThread then Outcome(Err(Invalid), start)
    else if unread.Err? then Outcome(Err(unread.error), start + 1)
    else AttemptsFrom(w, 0, start + 1, first.epoch, first.sequence)
  }

  // ---------------------------------------------------------------------------------------
  // What every read returns, whatever the server does.

  /** Valid entries, none of them twice. */
  ghost predicate Tidy(entries: seq<Entry>) {
    DistinctIds(entries) && AllValid(entries)
  }

  predicate FailsWith(w: Timeline, sent: nat, cursor: Option<Name>, failure: Failure) {
    var answer := w.answer(sent, cursor);
    answer.Err? && answer.error == failure
  }

  ghost predicate FailedAt(w: Timeline, sent: nat, failure: Failure) {
    exists cursor :: FailsWith(w, sent, cursor, failure)
  }

  /** An error names a fact of the moment it was found. */
  ghost predicate Explains(error: ReadError, w: Timeline, epoch: nat, after: nat, now: nat) {
    match error
    case ConnectionChanged => now > 0 && (!w.view(now - 1).connected || w.view(now - 1).epoch != epoch)
    case AccessChanged =>
      now > 0 && (w.view(now - 1).scopeClosed || w.view(now - 1).archived
                  || w.view(now - 1).scopeChange > after || w.view(now - 1).access > after)
    case CallFailed(failure) => now > 0 && FailedAt(w, now - 1, failure)
    case BadPage(page) => 1 <= page <= QUEUE_MAX_PAGES
    case _ => false
  }

  /** What an attempt that found this at `now` met, when it began with `q`. */
  ghost predicate Truthful(w: Timeline, q: QueueRead, found: Found) {
    match found.attempt
    case Whole(queue) =>
      && found.now > 0 && Current(queue, w.view(found.now - 1)) == Ok(true)
      && queue == q.(entries := queue.entries) && Tidy(queue.entries)
    case Changed => found.now > 0 && w.view(found.now - 1).queueStamp != q.queueStamp
    case Broken(error) => Explains(error, w, q.epoch, q.after, found.now)
  }

  lemma {:induction false} PagesTruthful(w: Timeline, p: Progress)
    requires Tidy(p.queue.entries) && 1 <= p.page
    ensures var found := PagesFrom(w, p);
            p.now <= found.now && Truthful(w, p.queue, found) && (found.attempt.Changed? ==> p.now < found.now)
    decreases QUEUE_MAX_PAGES + 1 - p.page
  {
    if p.page <= QUEUE_MAX_PAGES {
      PageTruthful(w, p);
      if TurnPage(w, p).More? {
        PagesTruthful(w, TurnPage(w, p).progress);
      }
    }
  }

  lemma {:induction false} PageTruthful(w: Timeline, p: Progress)
    requires Tidy(p.queue.entries) && 1 <= p.page <= QUEUE_MAX_PAGES
    ensures match TurnPage(w, p)
            case Stop(found) => p.now < found.now && Truthful(w, p.queue, found)
            case More(next) =>
              p.now < next.now && next.queue == p.queue.(entries := next.queue.entries) && Tidy(next.queue.entries)
  {
    var answer := w.answer(p.now + 1, p.cursor);
    if answer.Err? {
      assert FailsWith(w, p.now + 1, p.cursor, answer.error);
    } else if answer.value.data.Some? && Fits(p.queue.entries, answer.value.data.value) {
      FittingTidy(p.queue.entries, answer.value.data.value);
    }
  }

  lemma {:induction false} FittingTidy(entries: seq<Entry>, data: seq<Entry>)
    requires Tidy(entries) && Fits(entries, data)
    ensures Tidy(entries + data)
  {
  }

  lemma {:induction false} AttemptTruthful(w: Timeline, start: nat, epoch: nat, after: nat)
    ensures var found := AttemptOf(w, start, epoch, after);
            && start < found.now && Truthful(w, Begin(w, start, epoch, after).queue, found)
            && (found.attempt.Changed? ==> start < found.now - 1)
  {
    PagesTruthful(w, Begin(w, start, epoch, after));
  }

  /** Two moments of a stretch show different stamps. */
  ghost predicate Changes(w: Timeline, start: nat, end: nat) {
    exists t: nat, u: nat :: start <= t < u < end && w.view(t).queueStamp != w.view(u).queueStamp
  }

  lemma {:induction false} ChangesWithin(w: Timeline, start: nat, t: nat, u: nat, end: nat)
    requires start <= t < u < end && w.view(t).queueStamp != w.view(u).queueStamp
    ensures Changes(w, start, end)
  {
  }

  lemma {:induction false} AttemptsTruthful(w: Timeline, attempt: nat, now: nat, epoch: nat, after: nat)
    ensures var r := AttemptsFrom(w, attempt, now, epoch, after);
            && now <= r.now
            && match r.result
               case Ok(queue) =>
                 && r.now > now && Current(queue, w.view(r.now - 1)) == Ok(true)
                 && queue.epoch == epoch && queue.after == after && Tidy(queue.entries)
               case Err(error) =>
                 if error.KeptChanging? then attempt < ATTEMPTS ==> Changes(w, now, r.now)
                 else Explains(error, w, epoch, after, r.now)
    decreases ATTEMPTS - attempt
  {
    hide AttemptOf, FailedAt, Tidy, Current, Changes;
    if attempt < ATTEMPTS {
      var found := AttemptOf(w, now, epoch, after);
      AttemptTruthful(w, now, epoch, after);
      if found.attempt.Changed? {
        AttemptsTruthful(w, attempt + 1, found.now, epoch, after);
        ChangesWithin(w, now, now, found.now - 1, AttemptsFrom(w, attempt, now, epoch, after).now);
      }
    }
  }

  /**
    Ok only with a tidy queue whose last look was current, on the epoch and watermark of the first;
    and an error is never made up.
  */
  lemma {:induction false} ReadIsFenced(w: Timeline, start: nat, validThread: bool)
    ensures var r := ReadOf(w, start, validThread);
            && start <= r.now && (validThread ==> start < r.now)
            && match r.result
               case Ok(queue) =>
                 && validThread && r.now > start && Current(queue, w.view(r.now - 1)) == Ok(true)
                 && queue.epoch == w.view(start).epoch && queue.after == w.view(start).sequence && Tidy(queue.entries)
               case Err(error) =>
                 if error.Invalid? then !validThread
                 else if error.KeptChanging? then Changes(w, start, r.now)
                 else Explains(error, w, w.view(start).epoch, w.view(start).sequence, r.now)
  {
    hide Tidy, AttemptsFrom;
    AttemptsTruthful(w, 0, start + 1, w.view(start).epoch, w.view(start).sequence);
  }

  // ---------------------------------------------------------------------------------------
  // What a queue is made of, whatever the server does.

  /** The pages of one traversal: each asked for with the cursor of the page before, down to the last. */
  ghost predicate Traversal(w: Timeline, now: nat, cursor: Option<Name>, pages: seq<Page>)
    decreases |pages|
  {
    && pages != [] && w.answer(now + 1, cursor) == Ok(pages[0])
    && pages[0].data.Some? && |pages[0].data.value| <= 25
    && if |pages| == 1 then pages[0].next == End
       else && pages[0].next.At? && pages[0].next.usable
            && Traversal(w, now + 3, Some(pages[0].next.cursor), pages[1..])
  }

  function EntriesOf(pages: seq<Page>): seq<Entry> {
    if pages == [] then [] else (if pages[0].data.Some? then pages[0].data.value else []) + EntriesOf(pages[1..])
  }

  function BytesOf(pages: seq<Page>): nat {
    if pages == [] then 0 else pages[0].bytes + BytesOf(pages[1..])
  }

  /** The cursors that were followed. */
  function CursorsOf(pages: seq<Page>): set<Name> {
    if pages == [] || !pages[0].next.At? then {} else {pages[0].next.cursor} + CursorsOf(pages[1..])
  }

  ghost predicate NoCursorTwice(pages: seq<Page>) {
    pages == [] || !pages[0].next.At?
    || (pages[0].next.cursor !in CursorsOf(pages[1..]) && NoCursorTwice(pages[1..]))
  }

  lemma {:induction false} PagesTraverse(w: Timeline, p: Progress) returns (pages: seq<Page>)
    requires 1 <= p.page && PagesFrom(w, p).attempt.Whole?
    ensures Traversal(w, p.now, p.cursor, pages) && p.page + |pages| - 1 <= 100
    ensures PagesFrom(w, p).attempt.queue.entries == p.queue.entries + EntriesOf(pages)
    ensures p.bytes + BytesOf(pages) <= 67_108_864
    ensures NoCursorTwice(pages) && CursorsOf(pages) !! p.cursors
    ensures PagesFrom(w, p).now == p.now + 3 * |pages|
    decreases QUEUE_MAX_PAGES + 1 - p.page
  {
    hide Fits;
    var page := w.answer(p.now + 1, p.cursor).value;
    if TurnPage(w, p).More? {
      var next := TurnPage(w, p).progress;
      var rest := PagesTraverse(w, next);
      pages := [page] + rest;
      assert pages[1..] == rest;
      assert p.queue.entries + (page.data.value + EntriesOf(rest)) == next.queue.entries + EntriesOf(rest);
    } else {
      pages := [page];
      assert pages[1..] == [];
      assert page.data.value + [] == page.data.value;
    }
  }

  lemma {:induction false} AttemptsTraverse(w: Timeline, attempt: nat, now: nat, epoch: nat, after: nat)
      returns (from: nat, pages: seq<Page>)
    requires AttemptsFrom(w, attempt, now, epoch, after).result.Ok?
    ensures now < from && Traversal(w, from, None, pages) && |pages| <= 100
    ensures var r := AttemptsFrom(w, attempt, now, epoch, after);
            r.result.value.entries == EntriesOf(pages) && r.now == from + 3 * |pages|
    ensures BytesOf(pages) <= 67_108_864 && NoCursorTwice(pages)
    decreases ATTEMPTS - attempt
  {
    hide PagesFrom, Traversal;
    var found := AttemptOf(w, now, epoch, after);
    if found.attempt.Changed? {
      AttemptTruthful(w, now, epoch, after);
      from, pages := AttemptsTraverse(w, attempt + 1, found.now, epoch, after);
    } else {
      from := now + 1;
      pages := PagesTraverse(w, Begin(w, now, epoch, after));
      assert [] + EntriesOf(pages) == EntriesOf(pages);
    }
  }

  /** `pages` is a traversal from moment `from` that ends at `end`, within the limits of a read. */
  ghost predicate Complete(w: Timeline, from: nat, end: nat, pages: seq<Page>) {
    && Traversal(w, from, None, pages) && |pages| <= 100 && BytesOf(pages) <= 67_108_864 && NoCursorTwice(pages)
    && end == from + 3 * |pages|
  }

  /**
    From any server, what a read returns is all the pages of its last traversal, from the first to
    the one without a cursor, in order and none twice: at most 100 pages of 25 entries and 64 MiB.
  */
  lemma {:induction false} ReadIsWhole(w: Timeline, start: nat, validThread: bool)
    requires ReadOf(w, start, validThread).result.Ok?
    ensures var r := ReadOf(w, start, validThread);
            exists from: nat, pages :: start < from && Complete(w, from, r.now, pages)
                                       && r.result.value.entries == EntriesOf(pages)
  {
    hide AttemptsFrom, Traversal;
    var from, pages := AttemptsTraverse(w, 0, start + 1, w.view(start).epoch, w.view(start).sequence);
    assert Complete(w, from, ReadOf(w, start, validThread).now, pages);
  }

  // ---------------------------------------------------------------------------------------
  // When a read gives up.

  /** How often the stamp changes from one moment to the next within a stretch. */
  function Flips(w: Timeline, from: nat, end: nat): nat
    decreases end - from
  {
    if from + 1 >= end then 0
    else (if w.view(from).queueStamp != w.view(from + 1).queueStamp then 1 else 0) + Flips(w, from + 1, end)
  }

  /** Two stretches, one after the other. */
  lemma {:induction false} FlipsAdd(w: Timeline, from: nat, mid: nat, end: nat)
    requires from <= mid <= end
    ensures Flips(w, from, end) >= Flips(w, from, mid) + Flips(w, mid, end)
    decreases mid - from
  {
    if from < mid {
      FlipsAdd(w, from + 1, mid, end);
    }
  }

  /** A stretch that shows two stamps flips. */
  lemma {:induction false} FlipBetween(w: Timeline, from: nat, u: nat, end: nat)
    requires from < u < end && w.view(from).queueStamp != w.view(u).queueStamp
    ensures Flips(w, from, end) >= 1
    decreases u - from
  {
    if w.view(from).queueStamp == w.view(from + 1).queueStamp {
      FlipBetween(w, from + 1, u, end);
    }
  }

  lemma {:induction false} AttemptsFlip(w: Timeline, attempt: nat, now: nat, epoch: nat, after: nat)
    requires attempt <= ATTEMPTS
    ensures var r := AttemptsFrom(w, attempt, now, epoch, after);
            now <= r.now && (r.result == Err(KeptChanging) ==> Flips(w, now, r.now) >= ATTEMPTS - attempt)
    decreases ATTEMPTS - attempt
  {
    hide AttemptOf, FailedAt, Tidy, Current;
    if attempt < ATTEMPTS {
      var found := AttemptOf(w, now, epoch, after);
      AttemptTruthful(w, now, epoch, after);
      if found.attempt.Changed? {
        var r := AttemptsFrom(w, attempt, now, epoch, after);
        AttemptsFlip(w, attempt + 1, found.now, epoch, after);
        FlipBetween(w, now, found.now - 1, found.now);
        FlipsAdd(w, now, found.now, r.now);
      }
    }
  }

  /** A read gives up only after four attempts, in each of which the stamp changed. */
  lemma {:induction false} GivesUpAfterFour(w: Timeline, start: nat, validThread: bool)
    ensures var r := ReadOf(w, start, validThread);
            r.result == Err(KeptChanging) ==> Flips(w, start + 1, r.now) >= 4
  {
    hide AttemptsFrom;
    AttemptsFlip(w, 0, start + 1, w.view(start).epoch, w.view(start).sequence);
  }

  // ---------------------------------------------------------------------------------------
  // A server that notifies every queue change before any reply that reflects it.

  /**
    `contents(n)`: the queue at version n. `live(t)`: the server's version at moment t.
    `noticed(t)`: the version whose notice has reached the gateway by moment t.
    `source(t, cursor)`: the version a page was read from. `position`: what a cursor means.
  */
  datatype Server = Server(
    contents: nat -> seq<Entry>,
    live: nat -> nat,
    noticed: nat -> nat,
    source: (nat, Option<Name>) -> nat,
    position: Name -> nat)

  function PositionOf(s: Server, cursor: Option<Name>): nat {
    if cursor.None? then 0 else s.position(cursor.value)
  }

  /** `page` is a stretch of `queue` from `at`, and says truthfully where the rest begins. */
  ghost predicate PageOf(s: Server, page: Page, queue: seq<Entry>, at: nat) {
    page.data.Some? ==>
      var data := page.data.value;
      && at + |data| <= |queue|
      && data == queue[at..at + |data|]
      && (page.next.End? ==> at + |data| == |queue|)
      && (page.next.At? ==> s.position(page.next.cursor) == at + |data|)
  }

  /** Neither the server nor the notices go back. */
  ghost predicate InOrder(s: Server, t: nat, u: nat) {
    t <= u ==> s.live(t) <= s.live(u) && s.noticed(t) <= s.noticed(u)
  }

  /** A page is read no earlier than it was asked for, and its version is noticed before it arrives. */
  ghost predicate Honest(s: Server, w: Timeline, t: nat, cursor: Option<Name>) {
    w.answer(t, cursor).Ok? ==>
      && s.noticed(t) <= s.live(t) <= s.source(t, cursor) <= s.noticed(t + 1)
      && PageOf(s, w.answer(t, cursor).value, s.contents(s.source(t, cursor)), PositionOf(s, cursor))
  }

  ghost predicate Notifies(s: Server, w: Timeline) {
    (forall t: nat, u: nat :: InOrder(s, t, u)) && (forall t: nat, cursor :: Honest(s, w, t, cursor))
  }

  predicate Usable(v: View, epoch: nat, after: nat) {
    v.connected && v.epoch == epoch && !v.scopeClosed && !v.archived && v.scopeChange <= after && v.access <= after
  }

  /** `current` accepts the thread at the first look. */
  predicate Readable(v: View) {
    Usable(v, v.epoch, v.sequence)
  }

  /** From `start` to `end`, usable looks with equal stamps see no notice between them. */
  ghost predicate Telling(s: Server, w: Timeline, start: nat, end: nat) {
    forall t: nat, u: nat ::
      start <= t <= u < end && Alike(w, t, u, w.view(start).epoch, w.view(start).sequence) ==>
        s.noticed(t) == s.noticed(u)
  }

  ghost predicate Alike(w: Timeline, t: nat, u: nat, epoch: nat, after: nat) {
    Usable(w.view(t), epoch, after) && Usable(w.view(u), epoch, after) && w.view(t).queueStamp == w.view(u).queueStamp
  }

  /** A page that arrives between two looks at a telling stamp was read from the version noticed first. */
  lemma {:induction false} PageVersion(s: Server, w: Timeline, start: nat, end: nat, begun: nat, sent: nat,
                                       cursor: Option<Name>)
    requires Notifies(s, w) && Telling(s, w, start, end)
    requires start <= begun < sent && sent + 1 < end && w.answer(sent, cursor).Ok?
    requires Alike(w, begun, sent + 1, w.view(start).epoch, w.view(start).sequence)
    ensures s.source(sent, cursor) == s.noticed(begun) == s.noticed(sent + 1)
  {
    assert InOrder(s, begun, sent) && Honest(s, w, sent, cursor);
  }

  /** The pages so far are the front of one version. */
  ghost predicate Front(s: Server, version: nat, entries: seq<Entry>, cursor: Option<Name>) {
    var at := PositionOf(s, cursor);
    at <= |s.contents(version)| && entries == s.contents(version)[..at]
  }

  lemma {:induction false} PageExtends(s: Server, version: nat, entries: seq<Entry>, cursor: Option<Name>, page: Page)
    requires Front(s, version, entries, cursor) && page.data.Some?
    requires PageOf(s, page, s.contents(version), PositionOf(s, cursor))
    ensures page.next.End? ==> entries + page.data.value == s.contents(version)
    ensures page.next.At? ==> Front(s, version, entries + page.data.value, Some(page.next.cursor))
    ensures page.next.At? ==> s.position(page.next.cursor) == PositionOf(s, cursor) + |page.data.value|
  {
    var at, data := PositionOf(s, cursor), page.data.value;
    assert entries + data == s.contents(version)[..at + |data|];
  }

  /** An attempt that began at `begun`, within a read that began at `start`. */
  ghost predicate Underway(w: Timeline, start: nat, begun: nat, p: Progress) {
    && start <= begun < p.now && 1 <= p.page
    && p.queue.epoch == w.view(start).epoch && p.queue.after == w.view(start).sequence
    && Current(p.queue, w.view(begun)) == Ok(true)
  }

  function EndOf(step: Step): nat {
    if step.Stop? then step.found.now else step.progress.now
  }

  lemma {:induction false} PagesAdvance(w: Timeline, p: Progress)
    ensures p.now <= PagesFrom(w, p).now
    decreases QUEUE_MAX_PAGES + 1 - p.page
  {
    if p.page <= QUEUE_MAX_PAGES && TurnPage(w, p).More? {
      PagesAdvance(w, TurnPage(w, p).progress);
    }
  }

  lemma {:induction false} TurnedPage(w: Timeline, s: Server, start: nat, end: nat, begun: nat, p: Progress)
    requires Notifies(s, w) && Telling(s, w, start, end) && Underway(w, start, begun, p)
    requires Current(p.queue, w.view(p.now + 2)) == Ok(true) && w.answer(p.now + 1, p.cursor).Ok? && p.now + 2 < end
    ensures s.noticed(p.now + 2) == s.noticed(begun)
    ensures PageOf(s, w.answer(p.now + 1, p.cursor).value, s.contents(s.noticed(begun)), PositionOf(s, p.cursor))
  {
    hide PageOf;
    PageVersion(s, w, start, end, begun, p.now + 1, p.cursor);
    assert Honest(s, w, p.now + 1, p.cursor);
  }

  lemma {:induction false} PageKeepsFront(w: Timeline, s: Server, start: nat, end: nat, begun: nat, p: Progress)
    requires Notifies(s, w) && Telling(s, w, start, end) && Underway(w, start, begun, p)
    requires Front(s, s.noticed(begun), p.queue.entries, p.cursor) && EndOf(TurnPage(w, p)) <= end
    ensures match TurnPage(w, p)
            case Stop(found) =>
              found.attempt.Whole? ==>
                && found.now > 0 && s.noticed(found.now - 1) == s.noticed(begun)
                && found.attempt.queue.entries == s.contents(s.noticed(begun))
            case More(next) =>
              Underway(w, start, begun, next) && Front(s, s.noticed(begun), next.queue.entries, next.cursor)
  {
    hide Notifies, Telling, PageOf, Front, Fits;
    var answer := w.answer(p.now + 1, p.cursor);
    if Current(p.queue, w.view(p.now)) == Ok(true) && Current(p.queue, w.view(p.now + 2)) == Ok(true)
       && answer.Ok? && answer.value.data.Some? {
      TurnedPage(w, s, start, end, begun, p);
      PageExtends(s, s.noticed(begun), p.queue.entries, p.cursor, answer.value);
    }
  }

  lemma {:induction false} PagesAreOneVersion(w: Timeline, s: Server, start: nat, end: nat, begun: nat, p: Progress)
    requires Notifies(s, w) && Telling(s, w, start, end) && Underway(w, start, begun, p)
    requires Front(s, s.noticed(begun), p.queue.entries, p.cursor) && PagesFrom(w, p).now <= end
    ensures var found := PagesFrom(w, p);
            found.attempt.Whole? ==>
              && found.now > 0 && s.noticed(found.now - 1) == s.noticed(begun)
              && found.attempt.queue.entries == s.contents(s.noticed(begun))
    decreases QUEUE_MAX_PAGES + 1 - p.page
  {
    hide Notifies, Telling, Front, Underway, TurnPage;
    if p.page <= QUEUE_MAX_PAGES {
      if TurnPage(w, p).More? {
        PagesAdvance(w, TurnPage(w, p).progress);
      }
      PageKeepsFront(w, s, start, end, begun, p);
      if TurnPage(w, p).More? {
        PagesAreOneVersion(w, s, start, end, begun, TurnPage(w, p).progress);
      }
    }
  }

  lemma {:induction false} EmptyFront(s: Server, version: nat)
    ensures Front(s, version, [], None)
  {
  }

  lemma {:induction false} AttemptsAreOneVersion(w: Timeline, s: Server, start: nat, end: nat, attempt: nat, now: nat)
    requires Notifies(s, w) && Telling(s, w, start, end) && start <= now
    requires AttemptsFrom(w, attempt, now, w.view(start).epoch, w.view(start).sequence).now <= end
    ensures var r := AttemptsFrom(w, attempt, now, w.view(start).epoch, w.view(start).sequence);
            r.result.Ok? ==> r.now > 0 && r.result.value.entries == s.contents(s.noticed(r.now - 1))
    decreases ATTEMPTS - attempt
  {
    hide Notifies, Telling, Front;
    var epoch, after := w.view(start).epoch, w.view(start).sequence;
    if attempt < ATTEMPTS {
      var found, p := AttemptOf(w, now, epoch, after), Begin(w, now, epoch, after);
      AttemptTruthful(w, now, epoch, after);
      if found.attempt.Changed? {
        AttemptsTruthful(w, attempt + 1, found.now, epoch, after);
      }
      if Current(p.queue, w.view(now)).Ok? {
        EmptyFront(s, s.noticed(now));
        PagesAreOneVersion(w, s, start, end, now, p);
      }
      if found.attempt.Changed? {
        AttemptsAreOneVersion(w, s, start, end, attempt + 1, found.now);
      }
    }
  }

  /** A read between telling stamps is the complete queue of a single version, the one last noticed. */
  lemma {:induction false} ReadIsOneVersion(w: Timeline, s: Server, start: nat, validThread: bool)
    requires Notifies(s, w) && Telling(s, w, start, ReadOf(w, start, validThread).now)
    ensures var r := ReadOf(w, start, validThread);
            r.result.Ok? ==> r.now > 0 && r.result.value.entries == s.contents(s.noticed(r.now - 1))
  {
    hide Notifies, Telling, AttemptsFrom;
    if validThread && Readable(w.view(start)) {
      AttemptsAreOneVersion(w, s, start, ReadOf(w, start, validThread).now, 0, start + 1);
    }
  }

  /** What `open` publishes, or `queue/cancel` acts on, after one more look is the version noticed then. */
  lemma {:induction false} PublishedIsNoticed(w: Timeline, s: Server, start: nat, validThread: bool, look: nat)
    requires Notifies(s, w) && Telling(s, w, start, look + 1)
    requires var r := ReadOf(w, start, validThread);
             r.result.Ok? && r.now <= look && Current(r.result.value, w.view(look)) == Ok(true)
    ensures ReadOf(w, start, validThread).result.value.entries == s.contents(s.noticed(look))
  {
    hide Notifies, ReadOf;
    ReadIsOneVersion(w, s, start, validThread);
    ReadIsFenced(w, start, validThread);
    assert Alike(w, ReadOf(w, start, validThread).now - 1, look, w.view(start).epoch, w.view(start).sequence);
  }

  // ---------------------------------------------------------------------------------------
  // A well-behaved server is never blamed.

  /** Valid, bounded pages that make progress through small queues. */
  ghost predicate Sane(s: Server, w: Timeline) {
    && (forall t: nat, cursor :: w.answer(t, cursor).Ok? ==> SanePage(w.answer(t, cursor).value))
    && (forall v: nat :: SaneQueue(s.contents(v)))
  }

  ghost predicate SanePage(page: Page) {
    && page.bytes * QUEUE_MAX_PAGES <= QUEUE_MAX_BYTES
    && page.data.Some? && |page.data.value| <= QUEUE_PAGE_LIMIT
    && (page.next.End? || (page.next.At? && page.next.usable && page.data.value != []))
  }

  ghost predicate SaneQueue(queue: seq<Entry>) {
    |queue| < QUEUE_MAX_PAGES && Tidy(queue)
  }

  /** Each page so far added an entry, so the pages cannot run out before the queue does. */
  ghost predicate Moving(s: Server, p: Progress) {
    && (forall c :: c in p.cursors ==> s.position(c) <= PositionOf(s, p.cursor))
    && p.bytes * QUEUE_MAX_PAGES <= QUEUE_MAX_BYTES * (p.page - 1)
    && p.page - 1 <= |p.queue.entries| < QUEUE_MAX_PAGES
  }

  lemma {:induction false} SanePageFits(s: Server, w: Timeline, version: nat, entries: seq<Entry>,
                                        cursor: Option<Name>, page: Page)
    requires Sane(s, w) && Front(s, version, entries, cursor)
    requires SanePage(page) && PageOf(s, page, s.contents(version), PositionOf(s, cursor))
    ensures Fits(entries, page.data.value) && |entries + page.data.value| < QUEUE_MAX_PAGES
  {
    var at, data, queue := PositionOf(s, cursor), page.data.value, s.contents(version);
    assert SaneQueue(queue);
    assert entries + data == queue[..at + |data|];
    forall k | 0 <= k < |data| ensures EntryValid(data[k]) {
      assert data[k] == queue[at + k];
    }
  }

  lemma {:induction false} SanePageAccepted(w: Timeline, s: Server, start: nat, end: nat, begun: nat, p: Progress)
    requires Notifies(s, w) && Telling(s, w, start, end) && Sane(s, w) && Underway(w, start, begun, p)
    requires Front(s, s.noticed(begun), p.queue.entries, p.cursor) && Moving(s, p) && p.page <= QUEUE_MAX_PAGES
    requires EndOf(TurnPage(w, p)) <= end
    ensures match TurnPage(w, p)
            case Stop(found) => !(found.attempt.Broken? && found.attempt.error.BadPage?)
            case More(next) => Moving(s, next)
  {
    hide Notifies, Telling, PageOf, Front, Fits, SaneQueue;
    var answer := w.answer(p.now + 1, p.cursor);
    if Current(p.queue, w.view(p.now)) == Ok(true) && Current(p.queue, w.view(p.now + 2)) == Ok(true) && answer.Ok? {
      TurnedPage(w, s, start, end, begun, p);
      SanePageFits(s, w, s.noticed(begun), p.queue.entries, p.cursor, answer.value);
      PageExtends(s, s.noticed(begun), p.queue.entries, p.cursor, answer.value);
    }
  }

  lemma {:induction false} PagesAccepted(w: Timeline, s: Server, start: nat, end: nat, begun: nat, p: Progress)
    requires Notifies(s, w) && Telling(s, w, start, end) && Sane(s, w) && Underway(w, start, begun, p)
    requires Front(s, s.noticed(begun), p.queue.entries, p.cursor) && Moving(s, p) && PagesFrom(w, p).now <= end
    ensures var found := PagesFrom(w, p); !(found.attempt.Broken? && found.attempt.error.BadPage?)
    decreases QUEUE_MAX_PAGES + 1 - p.page
  {
    hide Notifies, Telling, Sane, Front, Underway, TurnPage;
    assert 1 <= p.page <= QUEUE_MAX_PAGES by {
      assert Moving(s, p);
    }
    if TurnPage(w, p).More? {
      PagesAdvance(w, TurnPage(w, p).progress);
    }
    PageKeepsFront(w, s, start, end, begun, p);
    SanePageAccepted(w, s, start, end, begun, p);
    if TurnPage(w, p).More? {
      PagesAccepted(w, s, start, end, begun, TurnPage(w, p).progress);
    }
  }

  lemma {:induction false} AttemptsAccepted(w: Timeline, s: Server, start: nat, end: nat, attempt: nat, now: nat)
    requires Notifies(s, w) && Telling(s, w, start, end) && Sane(s, w) && start <= now
    requires AttemptsFrom(w, attempt, now, w.view(start).epoch, w.view(start).sequence).now <= end
    ensures var r := AttemptsFrom(w, attempt, now, w.view(start).epoch, w.view(start).sequence);
            !(r.result.Err? && r.result.error.BadPage?)
    decreases ATTEMPTS - attempt
  {
    hide Notifies, Telling, Sane, Front;
    var epoch, after := w.view(start).epoch, w.view(start).sequence;
    if attempt < ATTEMPTS {
      var found, p := AttemptOf(w, now, epoch, after), Begin(w, now, epoch, after);
      AttemptTruthful(w, now, epoch, after);
      if found.attempt.Changed? {
        AttemptsTruthful(w, attempt + 1, found.now, epoch, after);
      }
      if Current(p.queue, w.view(now)).Ok? {
        EmptyFront(s, s.noticed(now));
        PagesAccepted(w, s, start, end, now, p);
      }
      if found.attempt.Changed? {
        AttemptsAccepted(w, s, start, end, attempt + 1, found.now);
      }
    }
  }

  /** No page of a server that is sane and notifies its changes is ever refused. */
  lemma {:induction false} SaneServerNotBlamed(w: Timeline, s: Server, start: nat, validThread: bool)
    requires Notifies(s, w) && Telling(s, w, start, ReadOf(w, start, validThread).now) && Sane(s, w)
    ensures var r := ReadOf(w, start, validThread); !(r.result.Err? && r.result.error.BadPage?)
  {
    hide Notifies, Telling, Sane, AttemptsFrom;
    if validThread && Readable(w.view(start)) {
      AttemptsAccepted(w, s, start, ReadOf(w, start, validThread).now, 0, start + 1);
    }
  }

  /**
    A sane server that notifies its changes, answers every call, and changes the queue at most three
    times during the read of a thread that stays readable is read.
  */
  lemma {:induction false} PatientReadSucceeds(w: Timeline, s: Server, start: nat)
    requires Notifies(s, w) && Sane(s, w)
    requires var end := ReadOf(w, start, true).now;
             && Telling(s, w, start, end) && Flips(w, start + 1, end) <= 3
             && (forall t: nat :: start <= t < end ==> Usable(w.view(t), w.view(start).epoch, w.view(start).sequence))
             && (forall t: nat, cursor :: start <= t < end ==> w.answer(t, cursor).Ok?)
    ensures ReadOf(w, start, true).result.Ok?
  {
    hide Notifies, Sane, Telling, ReadOf, Flips;
    ReadIsFenced(w, start, true);
    SaneServerNotBlamed(w, s, start, true);
    GivesUpAfterFour(w, start, true);
  }

  // ---------------------------------------------------------------------------------------
  // Stamps that do not tell.

  const FIRST := [Entry(1, 1, true), Entry(2, 2, true)]
  const SECOND := [Entry(4, 4, true), Entry(3, 3, true)]
  const MIXED := [Entry(1, 1, true), Entry(3, 3, true)]

  /** The queue changes once, and its notice arrives, between the fourth look and the fifth. */
  function VersionAt(t: nat): nat {
    if t <= 4 then 0 else 1
  }

  function QueueAt(version: nat): seq<Entry> {
    if version == 0 then FIRST else SECOND
  }

  const CHANGING := Server(
    (n: nat) => QueueAt(n), (t: nat) => VersionAt(t), (t: nat) => VersionAt(t),
    (t: nat, _: Option<Name>) => VersionAt(t), (_: Name) => 1)

  /** The changing queue, one entry a page. */
  function AnswerAt(t: nat, cursor: Option<Name>): (r: Result<Page, Failure>)
    ensures r.Ok?
  {
    var queue := QueueAt(VersionAt(t));
    if cursor.None? then Ok(Page(Some(queue[..1]), 1, At(9, true))) else Ok(Page(Some(queue[1..]), 1, End))
  }

  function Unchanging(v: View): Timeline {
    Timeline((_: nat) => v, (t: nat, cursor: Option<Name>) => AnswerAt(t, cursor))
  }

  lemma {:induction false} AnswerTruthful(t: nat, cursor: Option<Name>)
    ensures PageOf(CHANGING, AnswerAt(t, cursor).value, QueueAt(VersionAt(t)), PositionOf(CHANGING, cursor))
  {
    assert FIRST[..1] == FIRST[0..1] && SECOND[..1] == SECOND[0..1];
    assert FIRST[1..] == FIRST[1..2] && SECOND[1..] == SECOND[1..2];
  }

  lemma {:induction false} ChangingNotifies(v: View)
    ensures Notifies(CHANGING, Unchanging(v))
  {
    hide PageOf, AnswerAt, QueueAt;
    forall t: nat, cursor: Option<Name>
      ensures PageOf(CHANGING, AnswerAt(t, cursor).value, QueueAt(VersionAt(t)), PositionOf(CHANGING, cursor))
    {
      AnswerTruthful(t, cursor);
    }
  }

  predicate OneVersion(s: Server, entries: seq<Entry>, version: nat) {
    entries == s.contents(version)
  }

  lemma {:induction false} MixedPages(v: View)
    requires Readable(v)
    ensures PagesFrom(Unchanging(v), Begin(Unchanging(v), 1, v.epoch, v.sequence)).attempt
            == Whole(QueueRead(MIXED, v.epoch, v.sequence, v.queueStamp))
  {
    var w := Unchanging(v);
    var p := Begin(w, 1, v.epoch, v.sequence);
    var q := p.queue.(entries := FIRST[..1]);
    assert p.queue.entries + FIRST[..1] == FIRST[..1] && q.entries + SECOND[1..] == MIXED;
    assert TurnPage(w, p) == More(Progress(q, Some(9), {} + {9}, 1, 2, 5));
    assert TurnPage(w, TurnPage(w, p).progress) == Stop(Found(Whole(q.(entries := MIXED)), 8));
  }

  /** If a change leaves no mark, a read of two pages returns the front of one version and the rest of another. */
  lemma {:induction false} MixedRead(v: View)
    requires Readable(v)
    ensures var r := ReadOf(Unchanging(v), 0, true);
            r.result.Ok? && r.result.value.entries == MIXED && forall n: nat :: !OneVersion(CHANGING, MIXED, n)
  {
    hide PagesFrom;
    MixedPages(v);
    assert MIXED[0] != SECOND[0] && MIXED[1] != FIRST[1];
  }

  // ---------------------------------------------------------------------------------------
  // The read as the source performs it.

  /** The entries of one page, checked one by one; the first offence ends the read. */
  method CollectPage(data: seq<Entry>, entries: seq<Entry>, ids: set<Name>)
    returns (ok: bool, entries': seq<Entry>, ids': set<Name>)
    requires ids == Ids(entries) && Tidy(entries)
    ensures ok <==> Fits(entries, data)
    ensures ok ==> entries' == entries + data && ids' == Ids(entries')
  {
    ok, entries', ids' := true, entries, ids;
    for i := 0 to |data|
      invariant entries' == entries + data[..i]
      invariant DistinctIds(entries')
      invariant ids' == Ids(entries')
      invariant forall k :: 0 <= k < i ==> EntryValid(data[k])
    {
      var e := data[i];
      assert (entries + data)[|entries| + i] == e;
      if !EntryValid(e) {
        return false, entries', ids';
      }
      if e.submission in ids' {
        var k :| 0 <= k < |entries'| && entries'[k].submission == e.submission;
        assert (entries + data)[k] == entries'[k];
        return false, entries', ids';
      }
      ids' := ids' + {e.submission};
      entries' := entries' + [e];
    }
    assert data[..|data|] == data;
  }

  /** One page that arrived under an unchanged stamp: taken whole, or the offence that ends the read. */
  method AcceptPage(p: Progress, ids: set<Name>, reply: Page) returns (step: Step, ids': set<Name>)
    requires ids == Ids(p.queue.entries) && Tidy(p.queue.entries)
    ensures step == Examine(p, reply)
    ensures step.More? ==> ids' == Ids(step.progress.queue.entries) && Tidy(step.progress.queue.entries)
                           && step.progress.now == p.now
  {
    hide Fits, Tidy, Ids;
    var bad := Stop(Found(Broken(BadPage(p.page)), p.now));
    var bytes := p.bytes + reply.bytes;
    ids' := ids;
    if bytes > QUEUE_MAX_BYTES || reply.data.None? || |reply.data.value| > QUEUE_PAGE_LIMIT {
      return bad, ids';
    }
    var ok, entries, seen := CollectPage(reply.data.value, p.queue.entries, ids);
    if !ok {
      return bad, ids';
    }
    FittingTidy(p.queue.entries, reply.data.value);
    var queue := p.queue.(entries := entries);
    ids' := seen;
    match reply.next {
      case End =>
        return Stop(Found(Whole(queue), p.now)), ids';
      case At(next, usable) =>
        if !usable || next in p.cursors {
          return bad, ids';
        }
        step := More(Progress(queue, Some(next), p.cursors + {next}, bytes, p.page + 1, p.now));
      case Odd =>
        return bad, ids';
    }
  }

  /** One attempt: pages until the end, a change, an offence or a failure. */
  method ReadAttempt(w: Timeline, start: nat, epoch: nat, after: nat) returns (r: Attempt, calls: nat, now: nat)
    ensures Found(r, now) == AttemptOf(w, start, epoch, after)
    ensures calls <= QUEUE_MAX_PAGES
  {
    hide Examine, Tidy, Current, Ids;
    calls, now := 0, start + 1;
    var p := Begin(w, start, epoch, after);
    var status := Current(p.queue, w.view(start));
    if status.Err? {
      return Broken(status.error), calls, now;
    }
    var ids: set<Name> := {};
    EmptyTidy();
    for page := 1 to QUEUE_MAX_PAGES + 1
      invariant calls <= page - 1 && p.page == page && p.now == now
      invariant ids == Ids(p.queue.entries) && Tidy(p.queue.entries)
      invariant PagesFrom(w, p) == AttemptOf(w, start, epoch, after)
    {
      status := Current(p.queue, w.view(now));
      now := now + 1;
      if status.Err? {
        return Broken(status.error), calls, now;
      }
      if !status.value {
        return Changed, calls, now;
      }
      var answer := w.answer(now, p.cursor);
      calls := calls + 1;
      now := now + 1;
      if answer.Err? {
        return Broken(CallFailed(answer.error)), calls, now;
      }
      status := Current(p.queue, w.view(now));
      now := now + 1;
      if status.Err? {
        return Broken(status.error), calls, now;
      }
      if !status.value {
        return Changed, calls, now;
      }
      var step, seen := AcceptPage(p.(now := now), ids, answer.value);
      assert step == TurnPage(w, p);
      if step.Stop? {
        return step.found.attempt, calls, step.found.now;
      }
      p, ids := step.progress, seen;
    }
    r := Broken(BadPage(QUEUE_MAX_PAGES));
  }

  lemma {:induction false} EmptyTidy()
    ensures Tidy([]) && Ids([]) == {}
  {
  }

  method ReadQueue(w: Timeline, start: nat, validThread: bool)
    returns (r: Result<QueueRead, ReadError>, calls: nat, now: nat)
    ensures Outcome(r, now) == ReadOf(w, start, validThread)
    ensures calls <= ATTEMPTS * QUEUE_MAX_PAGES
  {
    hide AttemptOf;
    calls, now := 0, start;
    if !validThread {
      return Err(Invalid), calls, now;
    }
    var first := w.view(now);
    now := now + 1;
    var unread := Current(QueueRead([], first.epoch, first.sequence, first.queueStamp), first);
    if unread.Err? {
      return Err(unread.error), calls, now;
    }
    for attempt := 0 to ATTEMPTS
      invariant calls <= attempt * QUEUE_MAX_PAGES
      invariant AttemptsFrom(w, attempt, now, first.epoch, first.sequence) == ReadOf(w, start, true)
    {
      var found, made, ended := ReadAttempt(w, now, first.epoch, first.sequence);
      calls, now := calls + made, ended;
      match found {
        case Whole(queue) =>
          return Ok(queue), calls, now;
        case Broken(error) =>
          return Err(error), calls, now;
        case Changed =>
      }
    }
    r := Err(KeptChanging);
  }
}
