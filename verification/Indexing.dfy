/**
 * Incremental indexing: runs that load a high-water cursor, pull what changed since, ingest it and
 * record a new cursor, over a source that keeps changing and with runs that overlap, fail or see nothing.
 */
module Indexing {
  import opened Wire

  type Time = int

  datatype Status = Running | Succeeded | Failed

  datatype Run = Run(
    id: string, connector: string, status: Status, startedAt: Time, finishedAt: Option<Time>,
    documentsSeen: nat, cursor: Option<Time>, error: Option<string>)

  // ----- the store

  /** A run that moves the cursor of connector `name`. */
  predicate Counts(run: Run, name: string) {
    run.connector == name && run.status == Succeeded && run.cursor.Some?
  }

  function MaxOption(a: Option<Time>, b: Option<Time>): Option<Time> {
    if a.None? then b else if b.None? then a else if a.value < b.value then b else a
  }

  function LatestCursor(runs: seq<Run>, name: string): Option<Time> {
    if runs == [] then None
    else
      var rest := LatestCursor(runs[..|runs| - 1], name);
      var last := runs[|runs| - 1];
      if Counts(last, name) then MaxOption(rest, last.cursor) else rest
  }

  /** The latest cursor is the greatest one recorded by a successful run of that connector. */
  lemma {:induction false} LatestCursorIsMax(runs: seq<Run>, name: string)
    ensures LatestCursor(runs, name).None? <==> forall i :: 0 <= i < |runs| ==> !Counts(runs[i], name)
    ensures LatestCursor(runs, name).Some? ==>
      && (exists i :: 0 <= i < |runs| && Counts(runs[i], name) && runs[i].cursor == LatestCursor(runs, name))
      && (forall i :: 0 <= i < |runs| && Counts(runs[i], name) ==> runs[i].cursor.value <= LatestCursor(runs, name).value)
  {
    if runs != [] {
      var front := runs[..|runs| - 1];
      LatestCursorIsMax(front, name);
      if exists i :: 0 <= i < |front| && Counts(front[i], name) && front[i].cursor == LatestCursor(front, name) {
        var i :| 0 <= i < |front| && Counts(front[i], name) && front[i].cursor == LatestCursor(front, name);
        assert runs[i] == front[i];
      }
      assert forall i :: 0 <= i < |front| ==> runs[i] == front[i];
      assert runs[|runs| - 1].cursor == LatestCursor(runs, name) || LatestCursor(runs, name) == LatestCursor(front, name);
    }
  }

  predicate HasId(runs: seq<Run>, id: string) { exists i :: 0 <= i < |runs| && runs[i].id == id }

  /** `runs'` is `runs` with the first entry of that id replaced, or with `run` added when there is none. */
  predicate Upserted(runs: seq<Run>, run: Run, runs': seq<Run>) {
    if HasId(runs, run.id) then
      exists i :: 0 <= i < |runs| && runs[i].id == run.id
        && (forall j :: 0 <= j < i ==> runs[j].id != run.id) && runs' == runs[i := run]
    else runs' == runs + [run]
  }

  class InMemoryIndexingStore {
    var runs: seq<Run>

    constructor ()
      ensures runs == []
    {
      runs := [];
    }

    method RecordRun(run: Run)
      modifies this
      ensures Upserted(old(runs), run, runs)
    {
      var i := 0;
      while i < |runs|
        invariant 0 <= i <= |runs| && runs == old(runs)
        invariant forall j :: 0 <= j < i ==> runs[j].id != run.id
      {
        if runs[i].id == run.id {
          runs := runs[i := run];
          return;
        }
        i := i + 1;
      }
      runs := runs + [run];
    }
  }

  // ----- one run

  /** A pulled document version: what changed, when, and the `updated_at` it carries, if it parses. */
  datatype Version = Version(doc: string, time: Time, stamp: Option<Time>)

  function MaxUpdatedAt(docs: seq<Version>): Option<Time> {
    if docs == [] then None else MaxOption(MaxUpdatedAt(docs[..|docs| - 1]), docs[|docs| - 1].stamp)
  }

  lemma {:induction false} MaxUpdatedAtBound(docs: seq<Version>, bound: Time)
    requires forall i :: 0 <= i < |docs| && docs[i].stamp.Some? ==> docs[i].stamp.value <= bound
    ensures MaxUpdatedAt(docs).Some? ==> MaxUpdatedAt(docs).value <= bound
  {
    if docs != [] {
      MaxUpdatedAtBound(docs[..|docs| - 1], bound);
      assert docs[|docs| - 1].stamp.Some? ==> docs[|docs| - 1].stamp.value <= bound;
    }
  }

  /** No stamp of the batch is later, and one of them is this. */
  predicate Greatest(docs: seq<Version>, t: Time) {
    && (exists i :: 0 <= i < |docs| && docs[i].stamp == Some(t))
    && (forall i :: 0 <= i < |docs| && docs[i].stamp.Some? ==> docs[i].stamp.value <= t)
  }

  ghost predicate MaxIs(docs: seq<Version>, m: Option<Time>) {
    match m
    case None => forall i :: 0 <= i < |docs| ==> docs[i].stamp.None?
    case Some(t) => Greatest(docs, t)
  }

  lemma MaxSnoc(front: seq<Version>, m: Option<Time>, last: Version)
    requires MaxIs(front, m)
    ensures MaxIs(front + [last], MaxOption(m, last.stamp))
  {
    var docs, m' := front + [last], MaxOption(m, last.stamp);
    assert docs[|front|] == last;
    if m'.Some? && last.stamp != m' {
      var i :| 0 <= i < |front| && front[i].stamp == m';
      assert docs[i].stamp == m';
    }
  }

  /** The fold is the greatest stamp of the batch, and none only when no stamp parses. */
  lemma {:induction false} MaxUpdatedAtIsMax(docs: seq<Version>)
    ensures MaxIs(docs, MaxUpdatedAt(docs))
  {
    if docs != [] {
      var n := |docs| - 1;
      MaxUpdatedAtIsMax(docs[..n]);
      MaxSnoc(docs[..n], MaxUpdatedAt(docs[..n]), docs[n]);
      assert docs == docs[..n] + [docs[n]];
    }
  }

  /** The cursor a run over a batch leaves: the old one for nothing, else its greatest stamp, else when the run started. */
  ghost predicate CursorAfter(since: Option<Time>, startedAt: Time, docs: seq<Version>, cursor: Option<Time>) {
    if docs == [] then cursor == since
    else if forall i :: 0 <= i < |docs| ==> docs[i].stamp.None? then cursor == Some(startedAt)
    else cursor.Some? && Greatest(docs, cursor.value)
  }

  lemma CursorIsAfter(since: Option<Time>, startedAt: Time, docs: seq<Version>)
    ensures CursorAfter(since, startedAt, docs, NewCursor(since, startedAt, docs))
  {
    MaxUpdatedAtIsMax(docs);
  }

  /** The cursor a successful run records. */
  function NewCursor(since: Option<Time>, startedAt: Time, docs: seq<Version>): Option<Time> {
    if |docs| == 0 then since
    else Some(var m := MaxUpdatedAt(docs); if m.Some? then m.value else startedAt)
  }

  function SucceededRun(id: string, name: string, startedAt: Time, finishedAt: Time, since: Option<Time>,
                        docs: seq<Version>): Run {
    Run(id, name, Succeeded, startedAt, Some(finishedAt), |docs|, NewCursor(since, startedAt, docs), None)
  }

  function FailedRun(id: string, name: string, startedAt: Time, finishedAt: Time, error: string): Run {
    Run(id, name, Failed, startedAt, Some(finishedAt), 0, None, Some(error))
  }

  datatype Attempt<T> = Ok(value: T) | Err(error: string)

  /**
   * One call of `run_once`, uninterrupted. `pull` answers the connector's pull for the loaded cursor and
   * `ingest` says whether the pipeline stored the batch.
   */
  method RunOnce(store: InMemoryIndexingStore, name: string, id: string, startedAt: Time, finishedAt: Time,
                 pull: Option<Time> -> Attempt<seq<Version>>, ingest: seq<Version> -> Attempt<()>)
    returns (run: Run)
    modifies store
    ensures Upserted(old(store.runs), run, store.runs)
    ensures var since := LatestCursor(old(store.runs), name);
      && run.id == id && run.connector == name && run.startedAt == startedAt
      && (run.status == Succeeded <==> pull(since).Ok? && ingest(pull(since).value).Ok?)
      && (run.status != Succeeded ==> run.status == Failed && run.cursor.None? && run.error.Some?)
      && (run.status == Succeeded ==>
            var docs := pull(since).value;
            && run.documentsSeen == |docs|
            && CursorAfter(since, startedAt, docs, run.cursor))
  {
    var since := LatestCursor(store.runs, name);
    var pulled := pull(since);
    if pulled.Err? {
      run := FailedRun(id, name, startedAt, finishedAt, pulled.error);
      store.RecordRun(run);
      return;
    }
    var report := ingest(pulled.value);
    if report.Err? {
      run := FailedRun(id, name, startedAt, finishedAt, report.error);
      store.RecordRun(run);
      return;
    }
    run := SucceededRun(id, name, startedAt, finishedAt, since, pulled.value);
    CursorIsAfter(since, startedAt, pulled.value);
    store.RecordRun(run);
  }

  // ----- many runs over a changing source

  /** How far a run in flight is. `picks` are the indices of the versions the pull returned. */
  datatype Phase =
    | Begun
    | Loaded(since: Option<Time>)
    | Pulled(since: Option<Time>, picks: seq<nat>, at: Time)

  datatype Flight = Flight(name: string, startedAt: Time, phase: Phase)

  /** `sources[name]` lists every version of every document of that connector, in order of change. */
  datatype World = World(
    now: Time, sources: map<string, seq<Version>>, runs: seq<Run>,
    flights: map<string, Flight>, ingested: set<(string, nat)>)

  function Source(w: World, name: string): seq<Version> { if name in w.sources then w.sources[name] else [] }

  /** Version `i` has not been replaced. */
  predicate Current(src: seq<Version>, i: nat) {
    i < |src| && forall j :: i < j < |src| ==> src[j].doc != src[i].doc
  }

  predicate Since(since: Option<Time>, t: Time) { since.None? || since.value <= t }

  function Picked(src: seq<Version>, picks: seq<nat>): seq<Version>
    requires forall k :: 0 <= k < |picks| ==> picks[k] < |src|
  {
    if picks == [] then [] else [src[picks[0]]] + Picked(src, picks[1..])
  }

  /** A pull returns current versions, and all of those changed at or after the cursor. */
  predicate FairPull(src: seq<Version>, since: Option<Time>, picks: seq<nat>) {
    && (forall k :: 0 <= k < |picks| ==> Current(src, picks[k]))
    && (forall i :: 0 <= i < |src| && Current(src, i) && Since(since, src[i].time) ==> i in picks)
  }

  datatype Action =
    | Tick(to: Time)
    | Edit(name: string, doc: string, stamp: Option<Time>)
    | Begin(id: string, name: string)
    | Load(id: string)
    | Pull(id: string, picks: seq<nat>)
    | PullFails(id: string, error: string)
    | Ingest(id: string)
    | IngestFails(id: string, error: string, stored: set<nat>)

  predicate Valid(w: World, a: Action) {
    match a
    case Tick(to) => w.now <= to
    case Edit(_, _, _) => true
    case Begin(id, _) => id !in w.flights && !HasId(w.runs, id)
    case Load(id) => id in w.flights && w.flights[id].phase.Begun?
    case Pull(id, picks) =>
      && id in w.flights && w.flights[id].phase.Loaded?
      && FairPull(Source(w, w.flights[id].name), w.flights[id].phase.since, picks)
    case PullFails(id, _) => id in w.flights && w.flights[id].phase.Loaded?
    case Ingest(id) =>
      && id in w.flights && w.flights[id].phase.Pulled?
      && (forall k :: 0 <= k < |w.flights[id].phase.picks| ==>
            w.flights[id].phase.picks[k] < |Source(w, w.flights[id].name)|)
    case IngestFails(id, _, _) => id in w.flights && w.flights[id].phase.Pulled?
  }

  function Land(w: World, id: string, run: Run, got: set<(string, nat)>): World {
    w.(runs := w.runs + [run], flights := w.flights - {id}, ingested := w.ingested + got)
  }

  function Do(w: World, a: Action): World
    requires Valid(w, a)
  {
    match a
    case Tick(to) => w.(now := to)
    case Edit(name, doc, stamp) =>
      w.(sources := w.sources[name := Source(w, name) + [Version(doc, w.now, stamp)]])
    case Begin(id, name) => w.(flights := w.flights[id := Flight(name, w.now, Begun)])
    case Load(id) =>
      var f := w.flights[id];
      w.(flights := w.flights[id := f.(phase := Loaded(LatestCursor(w.runs, f.name)))])
    case Pull(id, picks) =>
      var f := w.flights[id];
      w.(flights := w.flights[id := f.(phase := Pulled(f.phase.since, picks, w.now))])
    case PullFails(id, error) =>
      Land(w, id, FailedRun(id, w.flights[id].name, w.flights[id].startedAt, w.now, error), {})
    case Ingest(id) =>
      var f := w.flights[id];
      Land(w, id,
           SucceededRun(id, f.name, f.startedAt, w.now, f.phase.since, Picked(Source(w, f.name), f.phase.picks)),
           set i | i in f.phase.picks :: (f.name, i))
    case IngestFails(id, error, stored) =>
      Land(w, id, FailedRun(id, w.flights[id].name, w.flights[id].startedAt, w.now, error),
           set i | i in stored && i in w.flights[id].phase.picks :: (w.flights[id].name, i))
  }

  /** No version a pull returns is stamped later than the pull. */
  predicate Honest(w: World, a: Action) {
    a.Pull? && a.id in w.flights ==>
      var src := Source(w, w.flights[a.id].name);
      forall k :: 0 <= k < |a.picks| && a.picks[k] < |src| && src[a.picks[k]].stamp.Some? ==>
        src[a.picks[k]].stamp.value <= w.now
  }

  /** Every version below the cursor that is still current has been ingested. */
  ghost predicate Covered(w: World, name: string, cursor: Time) {
    forall i :: 0 <= i < |Source(w, name)| && Current(Source(w, name), i) && Source(w, name)[i].time < cursor ==>
      (name, i) in w.ingested
  }

  ghost predicate Coverage(w: World, name: string) {
    LatestCursor(w.runs, name).Some? ==> Covered(w, name, LatestCursor(w.runs, name).value)
  }

  // ----- the invariant

  predicate InTime(src: seq<Version>, now: Time) { forall i :: 0 <= i < |src| ==> src[i].time <= now }

  /** Versions below the pull time that are still current and not below the cursor were pulled. */
  predicate PulledAll(src: seq<Version>, since: Option<Time>, picks: seq<nat>, at: Time) {
    forall i :: 0 <= i < |src| && Current(src, i) && src[i].time < at && Since(since, src[i].time) ==> i in picks
  }

  predicate PicksHonest(src: seq<Version>, picks: seq<nat>, at: Time) {
    forall k :: 0 <= k < |picks| ==>
      picks[k] < |src| && (src[picks[k]].stamp.Some? ==> src[picks[k]].stamp.value <= at)
  }

  ghost predicate SinceOk(w: World, name: string, since: Option<Time>) {
    since.Some? ==> since.value <= w.now && Covered(w, name, since.value)
  }

  ghost predicate FlightOk(w: World, f: Flight) {
    && f.startedAt <= w.now
    && match f.phase
       case Begun => true
       case Loaded(since) => SinceOk(w, f.name, since)
       case Pulled(since, picks, at) =>
         && SinceOk(w, f.name, since) && f.startedAt <= at <= w.now
         && PulledAll(Source(w, f.name), since, picks, at) && PicksHonest(Source(w, f.name), picks, at)
  }

  ghost predicate RunOk(w: World, run: Run) {
    run.status == Succeeded ==> SinceOk(w, run.connector, run.cursor)
  }

  ghost predicate Inv(w: World) {
    && (forall name :: name in w.sources ==> InTime(w.sources[name], w.now))
    && (forall i :: 0 <= i < |w.runs| ==> RunOk(w, w.runs[i]))
    && (forall id :: id in w.flights ==> FlightOk(w, w.flights[id]))
  }

  lemma CoveredAfter(w: World, w': World, name: string, cursor: Time)
    requires Covered(w, name, cursor) && Source(w', name) == Source(w, name) && w.ingested <= w'.ingested
    ensures Covered(w', name, cursor)
  {
  }

  /** An edit at or after the cursor cannot uncover anything below it. */
  lemma EditKeepsCovered(w: World, a: Action, name: string, cursor: Time)
    requires a.Edit? && Covered(w, name, cursor) && cursor <= w.now
    ensures Covered(Do(w, a), name, cursor)
  {
    var src, src' := Source(w, name), Source(Do(w, a), name);
    forall i | 0 <= i < |src'| && Current(src', i) && src'[i].time < cursor ensures (name, i) in w.ingested {
      assert i < |src| && Current(src, i) by {
        assert forall j :: i < j < |src| ==> src'[j] == src[j];
      }
    }
  }

  lemma EditKeepsPulled(w: World, a: Action, name: string, since: Option<Time>, picks: seq<nat>, at: Time)
    requires a.Edit? && at <= w.now
    requires PulledAll(Source(w, name), since, picks, at) && PicksHonest(Source(w, name), picks, at)
    ensures var src' := Source(Do(w, a), name); PulledAll(src', since, picks, at) && PicksHonest(src', picks, at)
  {
    var src, src' := Source(w, name), Source(Do(w, a), name);
    forall i | 0 <= i < |src'| && Current(src', i) && src'[i].time < at && Since(since, src'[i].time)
      ensures i in picks
    {
      assert i < |src| && Current(src, i) by {
        assert forall j :: i < j < |src| ==> src'[j] == src[j];
      }
    }
  }

  lemma EditKeepsInv(w: World, a: Action)
    requires Inv(w) && a.Edit?
    ensures Inv(Do(w, a))
  {
    var w' := Do(w, a);
    forall i | 0 <= i < |w'.runs| ensures RunOk(w', w'.runs[i]) {
      var run := w.runs[i];
      assert RunOk(w, run);
      if run.status == Succeeded && run.cursor.Some? { EditKeepsCovered(w, a, run.connector, run.cursor.value); }
    }
    forall id | id in w'.flights ensures FlightOk(w', w'.flights[id]) {
      var f := w.flights[id];
      assert FlightOk(w, f);
      if !f.phase.Begun? && f.phase.since.Some? { EditKeepsCovered(w, a, f.name, f.phase.since.value); }
      if f.phase.Pulled? { EditKeepsPulled(w, a, f.name, f.phase.since, f.phase.picks, f.phase.at); }
    }
  }

  lemma SinceOkAfter(w: World, w': World, name: string, since: Option<Time>)
    requires SinceOk(w, name, since) && Source(w', name) == Source(w, name)
    requires w.ingested <= w'.ingested && w.now <= w'.now
    ensures SinceOk(w', name, since)
  {
    if since.Some? { CoveredAfter(w, w', name, since.value); }
  }

  /** Any other step leaves the sources alone; it may add runs, flights and ingested versions. */
  lemma StepKeepsInv(w: World, w': World)
    requires Inv(w) && w'.sources == w.sources && w.ingested <= w'.ingested && w.now <= w'.now
    requires forall i :: 0 <= i < |w'.runs| ==> (i < |w.runs| && w'.runs[i] == w.runs[i]) || RunOk(w', w'.runs[i])
    requires forall id :: id in w'.flights ==>
      (id in w.flights && w'.flights[id] == w.flights[id]) || FlightOk(w', w'.flights[id])
    ensures Inv(w')
  {
    forall i | 0 <= i < |w'.runs| ensures RunOk(w', w'.runs[i]) {
      if i < |w.runs| && w'.runs[i] == w.runs[i] {
        assert RunOk(w, w.runs[i]);
        if w.runs[i].status == Succeeded { SinceOkAfter(w, w', w.runs[i].connector, w.runs[i].cursor); }
      }
    }
    forall id | id in w'.flights ensures FlightOk(w', w'.flights[id]) {
      if id in w.flights && w'.flights[id] == w.flights[id] {
        var f := w.flights[id];
        assert FlightOk(w, f);
        if !f.phase.Begun? { SinceOkAfter(w, w', f.name, f.phase.since); }
      }
    }
  }

  lemma LoadOk(w: World, name: string)
    requires Inv(w)
    ensures SinceOk(w, name, LatestCursor(w.runs, name))
  {
    LatestCursorIsMax(w.runs, name);
    if LatestCursor(w.runs, name).Some? {
      var i :| 0 <= i < |w.runs| && Counts(w.runs[i], name) && w.runs[i].cursor == LatestCursor(w.runs, name);
      assert RunOk(w, w.runs[i]);
    }
  }

  lemma {:induction false} PickedStamps(src: seq<Version>, picks: seq<nat>, at: Time)
    requires PicksHonest(src, picks, at)
    ensures |Picked(src, picks)| == |picks|
    ensures forall k :: 0 <= k < |picks| ==> Picked(src, picks)[k] == src[picks[k]]
  {
    if picks != [] {
      assert PicksHonest(src, picks[1..], at);
      PickedStamps(src, picks[1..], at);
    }
  }

  /** The heart of the matter: what a successful run records is covered once its batch is ingested. */
  lemma IngestCovers(w: World, id: string)
    requires Valid(w, Ingest(id)) && FlightOk(w, w.flights[id])
    ensures var w' := Do(w, Ingest(id)); RunOk(w', w'.runs[|w'.runs| - 1])
  {
    var f := w.flights[id];
    var src, picks, since, at := Source(w, f.name), f.phase.picks, f.phase.since, f.phase.at;
    var w' := Do(w, Ingest(id));
    var docs := Picked(src, picks);
    PickedStamps(src, picks, at);
    MaxUpdatedAtBound(docs, at);
    SinceOkAfter(w, w', f.name, since);
    var cursor := NewCursor(since, f.startedAt, docs);
    if docs != [] {
      assert cursor.value <= at;
      forall i | 0 <= i < |src| && Current(src, i) && src[i].time < cursor.value ensures (f.name, i) in w'.ingested {
        if Since(since, src[i].time) {
          assert i in picks;
        } else {
          assert (f.name, i) in w.ingested;
        }
      }
    }
  }

  lemma PullOk(w: World, a: Action)
    requires Inv(w) && a.Pull? && Valid(w, a) && Honest(w, a)
    ensures FlightOk(Do(w, a), Do(w, a).flights[a.id])
  {
    assert FlightOk(w, w.flights[a.id]);
    var f := w.flights[a.id];
    SinceOkAfter(w, Do(w, a), f.name, f.phase.since);
  }

  lemma ActionKeepsInv(w: World, a: Action)
    requires Inv(w) && Valid(w, a) && Honest(w, a)
    ensures Inv(Do(w, a))
  {
    var w' := Do(w, a);
    match a
    case Edit(_, _, _) => EditKeepsInv(w, a);
    case Tick(_) => StepKeepsInv(w, w');
    case Begin(_, _) => StepKeepsInv(w, w');
    case Load(id) =>
      assert FlightOk(w, w.flights[id]);
      LoadOk(w, w.flights[id].name);
      SinceOkAfter(w, w', w.flights[id].name, LatestCursor(w.runs, w.flights[id].name));
      StepKeepsInv(w, w');
    case Pull(_, _) =>
      PullOk(w, a);
      StepKeepsInv(w, w');
    case Ingest(id) =>
      IngestCovers(w, id);
      StepKeepsInv(w, w');
    case PullFails(_, _) => StepKeepsInv(w, w');
    case IngestFails(_, _, _) => StepKeepsInv(w, w');
  }

  // ----- whole histories

  function Start(): World { World(0, map[], [], map[], {}) }

  predicate StepAt(ws: seq<World>, acts: seq<Action>, i: int) {
    0 <= i < |acts| && i + 1 < |ws| && Valid(ws[i], acts[i]) && ws[i + 1] == Do(ws[i], acts[i])
  }

  predicate History(ws: seq<World>, acts: seq<Action>) {
    && |ws| == |acts| + 1 && ws[0] == Start()
    && forall i :: 0 <= i < |acts| ==> StepAt(ws, acts, i)
  }

  predicate HonestHistory(ws: seq<World>, acts: seq<Action>) {
    History(ws, acts) && forall i :: 0 <= i < |acts| ==> Honest(ws[i], acts[i])
  }

  lemma {:induction false} HistoryInv(ws: seq<World>, acts: seq<Action>, i: nat)
    requires HonestHistory(ws, acts) && i < |ws|
    ensures Inv(ws[i])
  {
    if i > 0 {
      HistoryInv(ws, acts, i - 1);
      assert StepAt(ws, acts, i - 1) && Honest(ws[i - 1], acts[i - 1]);
      ActionKeepsInv(ws[i - 1], acts[i - 1]);
    }
  }

  /**
   * At-least-once: in every history of edits and overlapping successful, failed and empty runs, every
   * version that changed before the latest cursor and is still current has been ingested.
   */
  lemma AtLeastOnce(ws: seq<World>, acts: seq<Action>, i: nat, name: string)
    requires HonestHistory(ws, acts) && i < |ws|
    ensures Coverage(ws[i], name)
    ensures LatestCursor(ws[i].runs, name).Some? ==> LatestCursor(ws[i].runs, name).value <= ws[i].now
  {
    HistoryInv(ws, acts, i);
    LoadOk(ws[i], name);
  }

  // ----- the cursor only moves forward

  predicate AtMost(a: Option<Time>, b: Option<Time>) { a.Some? ==> b.Some? && a.value <= b.value }

  /** What a run in flight loaded is no later than the latest cursor now. */
  predicate LoadedBelow(w: World) {
    forall id :: id in w.flights && !w.flights[id].phase.Begun? ==>
      AtMost(w.flights[id].phase.since, LatestCursor(w.runs, w.flights[id].name))
  }

  lemma RecordMovesForward(runs: seq<Run>, run: Run, name: string)
    ensures LatestCursor(runs + [run], name) ==
            if Counts(run, name) then MaxOption(LatestCursor(runs, name), run.cursor) else LatestCursor(runs, name)
  {
    assert (runs + [run])[..|runs|] == runs;
  }

  /** Nothing lowers the cursor; a failed run, or one that saw no documents, leaves it where it was. */
  lemma CursorMovesForward(w: World, a: Action, name: string)
    requires Valid(w, a) && LoadedBelow(w)
    ensures AtMost(LatestCursor(w.runs, name), LatestCursor(Do(w, a).runs, name))
    ensures !a.Ingest? || w.flights[a.id].phase.picks == [] ==> LatestCursor(Do(w, a).runs, name) == LatestCursor(w.runs, name)
  {
    var w' := Do(w, a);
    if w'.runs != w.runs {
      RecordMovesForward(w.runs, w'.runs[|w.runs|], name);
    }
  }

  lemma LoadedStaysBelow(w: World, a: Action)
    requires Valid(w, a) && LoadedBelow(w)
    ensures LoadedBelow(Do(w, a))
  {
    var w' := Do(w, a);
    forall id | id in w'.flights && !w'.flights[id].phase.Begun?
      ensures AtMost(w'.flights[id].phase.since, LatestCursor(w'.runs, w'.flights[id].name))
    {
      CursorMovesForward(w, a, w'.flights[id].name);
    }
  }

  lemma {:induction false} HistoryLoadedBelow(ws: seq<World>, acts: seq<Action>, i: nat)
    requires History(ws, acts) && i < |ws|
    ensures LoadedBelow(ws[i])
  {
    if i > 0 {
      HistoryLoadedBelow(ws, acts, i - 1);
      assert StepAt(ws, acts, i - 1);
      LoadedStaysBelow(ws[i - 1], acts[i - 1]);
    }
  }

  /** Over any history the latest cursor of a connector never decreases. */
  lemma {:induction false} CursorNeverFalls(ws: seq<World>, acts: seq<Action>, i: nat, j: nat, name: string)
    requires History(ws, acts) && i <= j < |ws|
    ensures AtMost(LatestCursor(ws[i].runs, name), LatestCursor(ws[j].runs, name))
    decreases j
  {
    if i < j {
      CursorNeverFalls(ws, acts, i, j - 1, name);
      HistoryLoadedBelow(ws, acts, j - 1);
      assert StepAt(ws, acts, j - 1);
      CursorMovesForward(ws[j - 1], acts[j - 1], name);
    }
  }

  // ----- a landing run is recorded by the store's upsert

  predicate FlightsFresh(w: World) { forall id :: id in w.flights ==> !HasId(w.runs, id) }

  lemma LandingUpserts(w: World, a: Action)
    requires Valid(w, a) && FlightsFresh(w)
    ensures Do(w, a).runs != w.runs ==>
      |Do(w, a).runs| == |w.runs| + 1 && Upserted(w.runs, Do(w, a).runs[|w.runs|], Do(w, a).runs)
    ensures FlightsFresh(Do(w, a))
  {
    var w' := Do(w, a);
    forall id | id in w'.flights ensures !HasId(w'.runs, id) {
      if id in w.flights { assert !HasId(w.runs, id); }
    }
  }

  lemma {:induction false} RunsAreUpserted(ws: seq<World>, acts: seq<Action>, i: nat)
    requires History(ws, acts) && i < |ws|
    ensures FlightsFresh(ws[i])
    ensures i > 0 && ws[i].runs != ws[i - 1].runs ==>
      |ws[i].runs| == |ws[i - 1].runs| + 1 && Upserted(ws[i - 1].runs, ws[i].runs[|ws[i - 1].runs|], ws[i].runs)
  {
    if i > 0 {
      RunsAreUpserted(ws, acts, i - 1);
      assert StepAt(ws, acts, i - 1);
      LandingUpserts(ws[i - 1], acts[i - 1]);
    }
  }

  // ----- what a future-dated stamp costs

  ghost predicate IngestedExist(w: World, name: string) { forall i :: i >= |Source(w, name)| ==> (name, i) !in w.ingested }

  /** What a run in flight has pulled are versions of its source. */
  ghost predicate PicksExist(w: World) {
    forall id :: id in w.flights && w.flights[id].phase.Pulled? ==>
      forall i :: i in w.flights[id].phase.picks ==> i < |Source(w, w.flights[id].name)|
  }

  lemma SourcesGrow(w: World, a: Action, name: string)
    requires Valid(w, a)
    ensures Source(w, name) <= Source(Do(w, a), name)
  {
  }

  lemma ActionKeepsExisting(w: World, a: Action, name: string)
    requires Valid(w, a) && PicksExist(w) && IngestedExist(w, name)
    ensures PicksExist(Do(w, a)) && IngestedExist(Do(w, a), name)
  {
    var w' := Do(w, a);
    SourcesGrow(w, a, name);
    forall id | id in w'.flights && w'.flights[id].phase.Pulled?
      ensures forall i :: i in w'.flights[id].phase.picks ==> i < |Source(w', w'.flights[id].name)|
    {
      SourcesGrow(w, a, w'.flights[id].name);
    }
  }

  /** Every history only ever ingests versions its sources have, so the condition below applies to all its worlds. */
  lemma {:induction false} HistoryIngestsExisting(ws: seq<World>, acts: seq<Action>, i: nat, name: string)
    requires History(ws, acts) && i < |ws|
    ensures PicksExist(ws[i]) && IngestedExist(ws[i], name)
  {
    if i > 0 {
      HistoryIngestsExisting(ws, acts, i - 1, name);
      assert StepAt(ws, acts, i - 1);
      ActionKeepsExisting(ws[i - 1], acts[i - 1], name);
    }
  }

  /**
   * Coverage survives every further edit exactly when the latest cursor is not ahead of the clock, which
   * is what a document stamped later than its pull breaks.
   */
  lemma CoverageSurvivesEditsIff(w: World, name: string)
    requires Coverage(w, name) && IngestedExist(w, name)
    ensures (forall doc, stamp :: Coverage(Do(w, Edit(name, doc, stamp)), name)) <==>
            (LatestCursor(w.runs, name).Some? ==> LatestCursor(w.runs, name).value <= w.now)
  {
    var cursor := LatestCursor(w.runs, name);
    if cursor.Some? && w.now < cursor.value {
      var w' := Do(w, Edit(name, "new", None));
      var n := |Source(w, name)|;
      assert Current(Source(w', name), n) && Source(w', name)[n].time < cursor.value;
      assert !Coverage(w', name);
    } else if cursor.Some? {
      forall doc, stamp ensures Coverage(Do(w, Edit(name, doc, stamp)), name) {
        EditKeepsCovered(w, Edit(name, doc, stamp), name, cursor.value);
      }
    }
  }

  /** The same in every world of every history. */
  lemma ReachableCoverageSurvivesIff(ws: seq<World>, acts: seq<Action>, i: nat, name: string)
    requires History(ws, acts) && i < |ws| && Coverage(ws[i], name)
    ensures (forall doc, stamp :: Coverage(Do(ws[i], Edit(name, doc, stamp)), name)) <==>
            (LatestCursor(ws[i].runs, name).Some? ==> LatestCursor(ws[i].runs, name).value <= ws[i].now)
  {
    HistoryIngestsExisting(ws, acts, i, name);
    CoverageSurvivesEditsIff(ws[i], name);
  }

  // ----- a version behind the cursor of an incremental source is never seen again

  /** An incremental source returns nothing that changed before the cursor it is given. */
  predicate Incremental(w: World, a: Action) {
    a.Pull? && a.id in w.flights && w.flights[a.id].phase.Loaded? ==>
      var src := Source(w, w.flights[a.id].name);
      forall i :: i in a.picks && i < |src| ==> Since(w.flights[a.id].phase.since, src[i].time)
  }

  /** No run in flight has version `i`, changed at `t`, or can still pull it. */
  predicate OutOfReach(p: Phase, i: nat, t: Time) {
    match p
    case Begun => true
    case Loaded(since) => !Since(since, t)
    case Pulled(_, picks, _) => i !in picks
  }

  /** Version `i` was not ingested, the cursor is past it, and no run in flight reaches it. */
  ghost predicate Lost(w: World, name: string, i: nat) {
    && i < |Source(w, name)| && (name, i) !in w.ingested
    && !Since(LatestCursor(w.runs, name), Source(w, name)[i].time)
    && forall id :: id in w.flights && w.flights[id].name == name ==> OutOfReach(w.flights[id].phase, i, Source(w, name)[i].time)
  }

  lemma ActionKeepsLost(w: World, a: Action, name: string, i: nat)
    requires Valid(w, a) && LoadedBelow(w) && Incremental(w, a) && Lost(w, name, i)
    ensures Lost(Do(w, a), name, i)
  {
    var w' := Do(w, a);
    SourcesGrow(w, a, name);
    CursorMovesForward(w, a, name);
    forall id | id in w'.flights && w'.flights[id].name == name
      ensures OutOfReach(w'.flights[id].phase, i, Source(w, name)[i].time)
    {
      assert id in w.flights && w.flights[id].name == name ==> OutOfReach(w.flights[id].phase, i, Source(w, name)[i].time);
    }
  }

  /** With an incremental source, a lost version is never ingested by any run of any continuation. */
  lemma {:induction false} LostForever(ws: seq<World>, acts: seq<Action>, i: nat, j: nat, name: string, v: nat)
    requires History(ws, acts) && i <= j < |ws| && Lost(ws[i], name, v)
    requires forall k :: i <= k < |acts| ==> Incremental(ws[k], acts[k])
    ensures Lost(ws[j], name, v)
    decreases j
  {
    if i < j {
      LostForever(ws, acts, i, j - 1, name, v);
      assert StepAt(ws, acts, j - 1);
      HistoryLoadedBelow(ws, acts, j - 1);
      ActionKeepsLost(ws[j - 1], acts[j - 1], name, v);
    }
  }

  /** A short history: one document stamped from the future is indexed, then another one changes. */
  function FutureWorlds(): seq<World> {
    var v := Version("a", 0, Some(10));
    var one := map["web" := [v]];
    var run := SucceededRun("run", "web", 0, 0, None, [v]);
    [ Start(),
      World(0, one, [], map[], {}),
      World(0, one, [], map["run" := Flight("web", 0, Begun)], {}),
      World(0, one, [], map["run" := Flight("web", 0, Loaded(None))], {}),
      World(0, one, [], map["run" := Flight("web", 0, Pulled(None, [0], 0))], {}),
      World(0, one, [run], map[], {("web", 0)}),
      World(0, map["web" := [v, Version("b", 0, None)]], [run], map[], {("web", 0)}) ]
  }

  function FutureActions(): seq<Action> {
    [ Edit("web", "a", Some(10)), Begin("run", "web"), Load("run"), Pull("run", [0]), Ingest("run"),
      Edit("web", "b", None) ]
  }

  lemma FutureIngest()
    ensures StepAt(FutureWorlds(), FutureActions(), 4)
  {
    var v := Version("a", 0, Some(10));
    assert Picked([v], [0]) == [v];
    var w, w' := FutureWorlds()[4], FutureWorlds()[5];
    assert Source(w, "web") == [v];
    assert (set i | i in w.flights["run"].phase.picks :: ("web", i)) == {("web", 0)};
    assert w.flights - {"run"} == map[];
  }

  lemma FutureEdits()
    ensures StepAt(FutureWorlds(), FutureActions(), 0) && StepAt(FutureWorlds(), FutureActions(), 5)
  {
    var ws, acts := FutureWorlds(), FutureActions();
    var v, b := Version("a", 0, Some(10)), Version("b", 0, None);
    assert Source(ws[0], "web") + [v] == [v] && Source(ws[5], "web") + [b] == [v, b];
  }

  lemma FutureBegins()
    ensures StepAt(FutureWorlds(), FutureActions(), 1) && StepAt(FutureWorlds(), FutureActions(), 2)
  {
  }

  lemma FuturePull()
    ensures StepAt(FutureWorlds(), FutureActions(), 3)
  {
  }

  lemma FutureSteps()
    ensures History(FutureWorlds(), FutureActions())
  {
    var ws, acts := FutureWorlds(), FutureActions();
    FutureEdits();
    FutureBegins();
    FuturePull();
    FutureIngest();
    forall i | 0 <= i < |acts| ensures StepAt(ws, acts, i) {
      assert i == 0 || i == 1 || i == 2 || i == 3 || i == 4 || i == 5;
    }
  }

  lemma FutureCursor()
    ensures LatestCursor(FutureWorlds()[6].runs, "web") == Some(10)
  {
    var w := FutureWorlds()[6];
    var v := Version("a", 0, Some(10));
    assert MaxUpdatedAt([v]) == Some(10) by { assert [v][..0] == []; }
    assert w.runs[..0] == [];
  }

  /** A stamp from the future puts a later edit behind the cursor. */
  lemma FutureStampLosesAnEdit()
    ensures History(FutureWorlds(), FutureActions())
    ensures !Coverage(FutureWorlds()[6], "web") && Lost(FutureWorlds()[6], "web", 1)
  {
    FutureSteps();
    FutureCursor();
    var w := FutureWorlds()[6];
    assert Current(Source(w, "web"), 1) && Source(w, "web")[1].time < 10 && ("web", 1) !in w.ingested;
  }

  /** With an incremental source, no run of any continuation ingests that edit. */
  lemma FutureEditNeverIngested(ws: seq<World>, acts: seq<Action>, j: nat)
    requires History(ws, acts) && 6 <= j < |ws| && ws[6] == FutureWorlds()[6]
    requires forall k :: 6 <= k < |acts| ==> Incremental(ws[k], acts[k])
    ensures ("web", 1) !in ws[j].ingested
  {
    FutureStampLosesAnEdit();
    LostForever(ws, acts, 6, j, "web", 1);
  }
}
