/** Crash and resume: what survives of a conversation over any sequence of turns, failures, crashes and prunes. */
module Recovery {
  import opened Wire
  import opened Compaction
  import opened Checkpoints
  import opened AgentEffects
  import opened Agent

  // ----- the snapshots of one turn

  /** A snapshot of thread `t`: more than the prior history, and no more than `upTo`. */
  predicate SnapshotOk(c: Checkpoint, t: string, prior: seq<Message>, upTo: seq<Message>) {
    c.threadId == t && prior < c.messages && c.messages <= upTo
  }

  predicate AllSnapshotsOk(ss: seq<Checkpoint>, t: string, prior: seq<Message>, upTo: seq<Message>) {
    forall i :: 0 <= i < |ss| ==> SnapshotOk(ss[i], t, prior, upTo)
  }

  /** Each snapshot contains the ones before it. */
  predicate Nested(ss: seq<Checkpoint>) { forall i, j :: 0 <= i <= j < |ss| ==> ss[i].messages <= ss[j].messages }

  lemma NestedSnoc(ss: seq<Checkpoint>, c: Checkpoint)
    requires Nested(ss) && forall i :: 0 <= i < |ss| ==> ss[i].messages <= c.messages
    ensures Nested(ss + [c])
  {
  }

  /** Snapshots no later than `upTo`, then one of all of it. */
  lemma NestsWith(before: seq<Checkpoint>, t: string, prior: seq<Message>, earlier: seq<Message>, c: Checkpoint)
    requires Nested(before) && AllSnapshotsOk(before, t, prior, earlier) && earlier <= c.messages
    ensures Nested(before + [c])
  {
    forall i | 0 <= i < |before| ensures before[i].messages <= c.messages { assert SnapshotOk(before[i], t, prior, earlier); }
    NestedSnoc(before, c);
  }

  lemma {:induction false} SnapshotsNest(c: CheckpointStrategy, t: string, prior: seq<Message>, user: Message,
                                         replies: seq<seq<Message>>, tools: seq<Message>, ids: nat -> string, base: nat)
    requires |tools| <= |replies| <= |tools| + 1
    ensures Nested(Snapshots(c, t, prior, user, replies, tools, ids, base))
    decreases |replies| + |tools|
  {
    if replies != [] {
      var toolRound := |tools| == |replies|;
      var replies', tools' := if toolRound then replies else replies[..|replies| - 1], if toolRound then tools[..|tools| - 1] else tools;
      SnapshotsNest(c, t, prior, user, replies', tools', ids, base);
      SnapshotsGrow(c, t, prior, user, replies', tools', ids, base);
      var before := Snapshots(c, t, prior, user, replies', tools', ids, base);
      var now := prior + Transcript(user, replies, tools);
      NestsWith(before, t, prior, prior + Transcript(user, replies', tools'), Checkpoint(ids(base + |before|), t, now, |replies|));
    }
  }

  lemma {:induction false} SnapshotsGrow(c: CheckpointStrategy, t: string, prior: seq<Message>, user: Message,
                                         replies: seq<seq<Message>>, tools: seq<Message>, ids: nat -> string, base: nat)
    requires |tools| <= |replies| <= |tools| + 1
    ensures AllSnapshotsOk(Snapshots(c, t, prior, user, replies, tools, ids, base), t, prior, prior + Transcript(user, replies, tools))
    decreases |replies| + |tools|
  {
    if replies != [] {
      var toolRound := |tools| == |replies|;
      var replies', tools' := if toolRound then replies else replies[..|replies| - 1], if toolRound then tools[..|tools| - 1] else tools;
      SnapshotsGrow(c, t, prior, user, replies', tools', ids, base);
      var before := Snapshots(c, t, prior, user, replies', tools', ids, base);
      var earlier, now := prior + Transcript(user, replies', tools'), prior + Transcript(user, replies, tools);
      assert earlier <= now;
      TranscriptNonEmpty(user, replies, tools);
      var ss := Snapshots(c, t, prior, user, replies, tools, ids, base);
      forall i | 0 <= i < |ss| ensures SnapshotOk(ss[i], t, prior, now) {
        if i < |before| { assert ss[i] == before[i] && SnapshotOk(before[i], t, prior, earlier); }
      }
    }
  }

  lemma {:induction false} TranscriptNonEmpty(user: Message, replies: seq<seq<Message>>, tools: seq<Message>)
    requires |tools| <= |replies| <= |tools| + 1
    ensures Transcript(user, replies, tools) != []
    decreases |replies| + |tools|
  {
    if replies != [] {
      if |tools| == |replies| { TranscriptNonEmpty(user, replies, tools[..|tools| - 1]); }
      else { TranscriptNonEmpty(user, replies[..|replies| - 1], tools); }
    }
  }

  /** What the last checkpoint of a turn holds of the turn; none if it saved nothing. */
  function Saved(c: CheckpointStrategy, user: Message, replies: seq<seq<Message>>, tools: seq<Message>): Option<seq<Message>>
    requires |tools| <= |replies| <= |tools| + 1
  {
    match c
    case Never => None
    case AfterEachIteration =>
      if replies == [] then None
      else Some(Transcript(user, replies, if |tools| == |replies| then tools[..|tools| - 1] else tools))
    case AfterToolCall =>
      if tools == [] then None
      else Some(Transcript(user, if |tools| == |replies| then replies else replies[..|replies| - 1], tools))
  }

  lemma {:induction false} NeverSaves(t: string, prior: seq<Message>, user: Message, replies: seq<seq<Message>>, tools: seq<Message>,
                                      ids: nat -> string, base: nat)
    requires |tools| <= |replies| <= |tools| + 1
    ensures Snapshots(Never, t, prior, user, replies, tools, ids, base) == []
    decreases |replies| + |tools|
  {
    if replies != [] {
      if |tools| == |replies| { NeverSaves(t, prior, user, replies, tools[..|tools| - 1], ids, base); }
      else { NeverSaves(t, prior, user, replies[..|replies| - 1], tools, ids, base); }
    }
  }

  lemma LastSnapshot(c: CheckpointStrategy, t: string, prior: seq<Message>, user: Message, replies: seq<seq<Message>>,
                     tools: seq<Message>, ids: nat -> string, base: nat)
    requires |tools| <= |replies| <= |tools| + 1
    ensures var ss, saved := Snapshots(c, t, prior, user, replies, tools, ids, base), Saved(c, user, replies, tools);
      && (ss == [] <==> saved.None?)
      && (saved.Some? ==> ss[|ss| - 1].messages == prior + saved.value)
  {
    if c == Never {
      NeverSaves(t, prior, user, replies, tools, ids, base);
    } else if replies != [] && |tools| == |replies| {
      assert |replies| == |tools[..|tools| - 1]| + 1;
    } else if replies != [] {
      assert |replies[..|replies| - 1]| == |tools|;
    }
  }

  lemma SavedIsPart(c: CheckpointStrategy, user: Message, replies: seq<seq<Message>>, tools: seq<Message>)
    requires |tools| <= |replies| <= |tools| + 1 && Saved(c, user, replies, tools).Some?
    ensures [] < Saved(c, user, replies, tools).value <= Transcript(user, replies, tools)
  {
    if |tools| == |replies| { TranscriptNonEmpty(user, replies, tools[..|tools| - 1]); }
    else { TranscriptNonEmpty(user, replies[..|replies| - 1], tools); }
    TranscriptNonEmpty(user, replies, tools);
  }

  // ----- one conversation over time

  /** The thread in memory, and this thread's checkpoints in the store. */
  datatype Convo = Convo(mem: seq<Message>, mine: seq<Checkpoint>)

  /**
   * A turn completes; or the model or the gate throws and the thread stays in use; or the process dies in the
   * middle and the thread is rebuilt; or it is rebuilt between turns; or the store is pruned.
   */
  datatype Episode =
    | Turn(user: Message, replies: seq<seq<Message>>, tools: seq<Message>, base: nat)
    | Fail(user: Message, replies: seq<seq<Message>>, tools: seq<Message>, base: nat)
    | Crash(user: Message, replies: seq<seq<Message>>, tools: seq<Message>, base: nat)
    | Restart
    | Prune(keep: nat)

  predicate EpisodeOk(e: Episode) {
    match e
    case Turn(_, replies, tools, _) => |replies| == |tools| + 1
    case Fail(_, replies, tools, _) => |tools| <= |replies| <= |tools| + 1
    case Crash(_, replies, tools, _) => |tools| <= |replies| <= |tools| + 1
    case Restart => true
    case Prune(keep) => keep >= 1
  }

  function Live(c: CheckpointStrategy, t: string, ids: nat -> string, s: Convo, e: Episode): Convo
    requires EpisodeOk(e)
  {
    match e
    case Turn(user, replies, tools, base) =>
      Convo(s.mem + Transcript(user, replies, tools), s.mine + Snapshots(c, t, s.mem, user, replies, tools, ids, base))
    case Fail(user, replies, tools, base) =>
      Convo(s.mem, s.mine + Snapshots(c, t, s.mem, user, replies, tools, ids, base))
    case Crash(user, replies, tools, base) =>
      var mine := s.mine + Snapshots(c, t, s.mem, user, replies, tools, ids, base);
      Convo(Resumed(mine), mine)
    case Restart => Convo(Resumed(s.mine), s.mine)
    case Prune(keep) => Convo(s.mem, s.mine[Excess(|s.mine|, keep)..])
  }

  function LiveAll(c: CheckpointStrategy, t: string, ids: nat -> string, es: seq<Episode>): Convo
    requires forall i :: 0 <= i < |es| ==> EpisodeOk(es[i])
  {
    if es == [] then Convo([], [])
    else Live(c, t, ids, LiveAll(c, t, ids, es[..|es| - 1]), es[|es| - 1])
  }

  predicate AllOk(es: seq<Episode>) { forall i :: 0 <= i < |es| ==> EpisodeOk(es[i]) }

  /** In the middle of a turn, a resume finds what the turn saved last on top of the history, or what it found before. */
  lemma ResumeDuringTurn(c: CheckpointStrategy, t: string, ids: nat -> string, s: Convo, user: Message,
                         replies: seq<seq<Message>>, tools: seq<Message>, base: nat)
    requires |tools| <= |replies| <= |tools| + 1
    ensures var mine := s.mine + Snapshots(c, t, s.mem, user, replies, tools, ids, base);
      var saved := Saved(c, user, replies, tools);
      && Resumed(mine) == (if saved.Some? then s.mem + saved.value else Resumed(s.mine))
      && (saved.Some? ==> s.mem < Resumed(mine) <= s.mem + Transcript(user, replies, tools))
      && (Resumed(s.mine) <= s.mem ==>
            Resumed(mine) <= s.mem + Transcript(user, replies, tools) && Resumed(s.mine) <= Resumed(mine))
  {
    LastSnapshot(c, t, s.mem, user, replies, tools, ids, base);
    if Saved(c, user, replies, tools).Some? { SavedIsPart(c, user, replies, tools); }
    var ss := Snapshots(c, t, s.mem, user, replies, tools, ids, base);
    assert ss == [] ==> s.mine + ss == s.mine;
  }

  lemma PruneKeepsResumed(mine: seq<Checkpoint>, keep: nat)
    requires keep >= 1
    ensures Resumed(mine[Excess(|mine|, keep)..]) == Resumed(mine)
  {
    PruneKeepsLatestIff(mine, keep);
  }

  /** What an episode saves of a turn that was under way. */
  function PartOf(c: CheckpointStrategy, e: Episode): Option<seq<Message>>
    requires EpisodeOk(e)
  {
    if e.Turn? || e.Fail? || e.Crash? then Saved(c, e.user, e.replies, e.tools) else None
  }

  /** What one episode does to the thread and to what a resume finds. */
  lemma LiveIs(c: CheckpointStrategy, t: string, ids: nat -> string, s: Convo, e: Episode)
    requires EpisodeOk(e)
    ensures var s', part := Live(c, t, ids, s, e), PartOf(c, e);
      && Resumed(s'.mine) == (if part.Some? then s.mem + part.value else Resumed(s.mine))
      && s'.mem == (if e.Turn? then s.mem + Transcript(e.user, e.replies, e.tools)
                    else if e.Crash? || e.Restart? then Resumed(s'.mine) else s.mem)
      && (part.Some? ==> [] < part.value <= Transcript(e.user, e.replies, e.tools))
  {
    if e.Turn? || e.Fail? || e.Crash? {
      ResumeDuringTurn(c, t, ids, s, e.user, e.replies, e.tools, e.base);
      if PartOf(c, e).Some? { SavedIsPart(c, e.user, e.replies, e.tools); }
    }
    if e.Prune? { PruneKeepsResumed(s.mine, e.keep); }
  }

  /** The conversation in memory, and what a resume finds. */
  datatype Track = Track(mem: seq<Message>, found: seq<Message>)

  function Tracked(c: CheckpointStrategy, s: Track, e: Episode): Track
    requires EpisodeOk(e)
  {
    var part := PartOf(c, e);
    var found := if part.Some? then s.mem + part.value else s.found;
    Track(if e.Turn? then s.mem + Transcript(e.user, e.replies, e.tools) else if e.Crash? || e.Restart? then found else s.mem, found)
  }

  function TrackAll(c: CheckpointStrategy, es: seq<Episode>): Track
    requires AllOk(es)
  {
    if es == [] then Track([], []) else Tracked(c, TrackAll(c, es[..|es| - 1]), es[|es| - 1])
  }

  lemma {:induction false} TrackIs(c: CheckpointStrategy, t: string, ids: nat -> string, es: seq<Episode>)
    requires AllOk(es)
    ensures TrackAll(c, es) == Track(LiveAll(c, t, ids, es).mem, Resumed(LiveAll(c, t, ids, es).mine))
  {
    if es != [] {
      TrackIs(c, t, ids, es[..|es| - 1]);
      LiveIs(c, t, ids, LiveAll(c, t, ids, es[..|es| - 1]), es[|es| - 1]);
    }
  }

  lemma PartIsPart(c: CheckpointStrategy, e: Episode)
    requires EpisodeOk(e) && PartOf(c, e).Some?
    ensures [] < PartOf(c, e).value <= Transcript(e.user, e.replies, e.tools)
  {
    SavedIsPart(c, e.user, e.replies, e.tools);
  }

  // ----- when a resume is a prefix of the conversation

  /** The episode saves part of a turn that then fails: a resume finds messages that the thread does not have. */
  predicate Spoils(c: CheckpointStrategy, e: Episode)
    requires EpisodeOk(e)
  {
    e.Fail? && PartOf(c, e).Some?
  }

  /** The episode brings thread and store together again. */
  predicate Mends(c: CheckpointStrategy, e: Episode)
    requires EpisodeOk(e)
  {
    e.Crash? || e.Restart? || (e.Turn? && PartOf(c, e).Some?)
  }

  /** Episode `i` is the last to have spoiled the checkpoints, and nothing has mended them since. */
  predicate AheadSince(c: CheckpointStrategy, es: seq<Episode>, i: nat)
    requires AllOk(es)
  {
    i < |es| && Spoils(c, es[i]) && forall j :: i < j < |es| ==> !Spoils(c, es[j]) && !Mends(c, es[j])
  }

  /** What the completed turns among the episodes added to the conversation. */
  function Said(es: seq<Episode>): seq<Message>
    requires AllOk(es)
  {
    if es == [] then []
    else
      var e := es[|es| - 1];
      if e.Turn? then Said(es[..|es| - 1]) + Transcript(e.user, e.replies, e.tools) else Said(es[..|es| - 1])
  }

  lemma SpoilIs(c: CheckpointStrategy, es: seq<Episode>)
    requires AllOk(es) && es != [] && Spoils(c, es[|es| - 1])
    ensures var m := TrackAll(c, es[..|es| - 1]).mem; TrackAll(c, es) == Track(m, m + PartOf(c, es[|es| - 1]).value)
  {
  }

  /** An episode that neither spoils nor mends: a turn that saved nothing, or less. */
  lemma QuietIs(c: CheckpointStrategy, es: seq<Episode>, m: seq<Message>, said: seq<Message>)
    requires AllOk(es) && es != [] && !Spoils(c, es[|es| - 1]) && !Mends(c, es[|es| - 1])
    requires TrackAll(c, es[..|es| - 1]).mem == m + said
    ensures var e := es[|es| - 1];
      && TrackAll(c, es).found == TrackAll(c, es[..|es| - 1]).found
      && TrackAll(c, es).mem == m + if e.Turn? then said + Transcript(e.user, e.replies, e.tools) else said
  {
    var e := es[|es| - 1];
    if e.Turn? { assert m + said + Transcript(e.user, e.replies, e.tools) == m + (said + Transcript(e.user, e.replies, e.tools)); }
  }

  /** After a spoiling episode: the store holds its part, the thread what completed turns have added since. */
  lemma {:induction false} AheadIs(c: CheckpointStrategy, es: seq<Episode>, i: nat)
    requires AllOk(es) && AheadSince(c, es, i)
    ensures TrackAll(c, es).found == TrackAll(c, es[..i]).mem + PartOf(c, es[i]).value
    ensures TrackAll(c, es).mem == TrackAll(c, es[..i]).mem + Said(es[i + 1..])
    decreases |es|
  {
    var n := |es| - 1;
    var front := es[..n];
    if i == n {
      SpoilIs(c, es);
      assert es[i + 1..] == [];
    } else {
      assert AheadSince(c, front, i);
      AheadIs(c, front, i);
      assert front[..i] == es[..i];
      SaidMore(es, i + 1);
      QuietIs(c, es, TrackAll(c, es[..i]).mem, Said(front[i + 1..]));
    }
  }

  lemma SaidMore(es: seq<Episode>, k: nat)
    requires AllOk(es) && k < |es|
    ensures var front, e := es[..|es| - 1], es[|es| - 1];
      Said(es[k..]) == if e.Turn? then Said(front[k..]) + Transcript(e.user, e.replies, e.tools) else Said(front[k..])
  {
    assert es[k..][..|es[k..]| - 1] == es[..|es| - 1][k..];
  }

  lemma AheadStays(c: CheckpointStrategy, es: seq<Episode>, i: nat)
    requires AllOk(es) && es != [] && !Spoils(c, es[|es| - 1]) && !Mends(c, es[|es| - 1])
    ensures AheadSince(c, es[..|es| - 1], i) ==> AheadSince(c, es, i)
  {
  }

  lemma {:induction false} OtherwiseBehind(c: CheckpointStrategy, es: seq<Episode>)
    requires AllOk(es) && forall i: nat :: !AheadSince(c, es, i)
    ensures TrackAll(c, es).found <= TrackAll(c, es).mem
  {
    if es != [] {
      var n := |es| - 1;
      var front, e := es[..n], es[n];
      assert Spoils(c, e) ==> AheadSince(c, es, n);
      if PartOf(c, e).Some? { PartIsPart(c, e); }
      if !Mends(c, e) {
        forall i: nat ensures !AheadSince(c, front, i) { AheadStays(c, es, i); }
        OtherwiseBehind(c, front);
      }
    }
  }

  /**
   * A resume returns a prefix of the conversation exactly when no failed turn has left a checkpoint that was not
   * overtaken since, or completed turns happen to have said the same again.
   */
  lemma ResumeIsPrefixIff(c: CheckpointStrategy, t: string, ids: nat -> string, es: seq<Episode>)
    requires AllOk(es)
    ensures Resumed(LiveAll(c, t, ids, es).mine) <= LiveAll(c, t, ids, es).mem <==>
            forall i: nat :: AheadSince(c, es, i) ==> PartOf(c, es[i]).value <= Said(es[i + 1..])
  {
    TrackIs(c, t, ids, es);
    if i: nat :| AheadSince(c, es, i) {
      AheadIs(c, es, i);
      PrefixUnder(TrackAll(c, es[..i]).mem, PartOf(c, es[i]).value, Said(es[i + 1..]));
      assert forall k: nat :: AheadSince(c, es, k) ==> k == i;
    } else {
      OtherwiseBehind(c, es);
    }
  }

  lemma PrefixUnder(m: seq<Message>, a: seq<Message>, b: seq<Message>)
    ensures m + a <= m + b <==> a <= b
  {
    if m + a <= m + b {
      assert a == (m + a)[|m|..] && b == (m + b)[|m|..];
      assert forall k :: 0 <= k < |a| ==> a[k] == (m + a)[|m| + k] && b[k] == (m + b)[|m| + k];
    }
  }

  /** Without such failures it always does. */
  lemma ResumeIsPrefix(c: CheckpointStrategy, t: string, ids: nat -> string, es: seq<Episode>)
    requires AllOk(es) && forall i :: 0 <= i < |es| ==> !Spoils(c, es[i])
    ensures Resumed(LiveAll(c, t, ids, es).mine) <= LiveAll(c, t, ids, es).mem
  {
    TrackIs(c, t, ids, es);
    OtherwiseBehind(c, es);
  }

  /** A turn that throws after its first reply leaves a checkpoint of messages the thread never took in. */
  lemma FailureRunsAhead(t: string, ids: nat -> string, user: Message, reply: seq<Message>)
    ensures var es := [Fail(user, [reply], [], 0)];
      AllOk(es) && !(Resumed(LiveAll(AfterEachIteration, t, ids, es).mine) <= LiveAll(AfterEachIteration, t, ids, es).mem)
  {
    var es := [Fail(user, [reply], [], 0)];
    assert AheadSince(AfterEachIteration, es, 0) && es[1..] == [];
    SavedIsPart(AfterEachIteration, user, [reply], []);
    ResumeIsPrefixIff(AfterEachIteration, t, ids, es);
  }

  /**
   * With a checkpoint after each tool call only: a turn fails after a tool round, the next one completes without
   * tools. Neither is then a prefix of the other, and a restart brings the failed turn back and drops the completed one.
   */
  lemma FailureForks(t: string, ids: nat -> string, bad: Message, reply: seq<Message>, tool: Message, good: Message, answer: seq<Message>)
    requires bad != good
    ensures var es := [Fail(bad, [reply], [tool], 0), Turn(good, [answer], [], 0)];
      && AllOk(es) && AllOk(es + [Restart])
      && LiveAll(AfterToolCall, t, ids, es).mem == [good] + answer
      && Resumed(LiveAll(AfterToolCall, t, ids, es).mine) == [bad] + reply + [tool]
      && LiveAll(AfterToolCall, t, ids, es + [Restart]).mem == [bad] + reply + [tool]
  {
    var es := [Fail(bad, [reply], [tool], 0), Turn(good, [answer], [], 0)];
    TurnTexts(bad, reply, tool);
    TurnTexts(good, answer, tool);
    TrackIs(AfterToolCall, t, ids, es);
    TrackIs(AfterToolCall, t, ids, es + [Restart]);
    assert es[..1] == [es[0]] && [es[0]][..0] == [] && (es + [Restart])[..2] == es;
    assert TrackAll(AfterToolCall, [es[0]]) == Track([], [bad] + reply + [tool]);
    assert TrackAll(AfterToolCall, es) == Track([good] + answer, [bad] + reply + [tool]);
  }

  lemma TurnTexts(user: Message, reply: seq<Message>, tool: Message)
    ensures Transcript(user, [reply], []) == [user] + reply && Transcript(user, [reply], [tool]) == [user] + reply + [tool]
  {
    var replies: seq<seq<Message>>, tools: seq<Message> := [reply], [tool];
    assert replies[..0] == [] && tools[..0] == [];
  }

  // ----- with a checkpoint after each iteration

  /** A turn that got a reply has failed, and no turn, crash or restart came after it. */
  predicate FailureLast(es: seq<Episode>, i: nat) {
    i < |es| && es[i].Fail? && es[i].replies != [] && forall j :: i < j < |es| ==> !es[j].Turn? && !es[j].Crash? && !es[j].Restart?
  }

  lemma {:induction false} FoundIsWholeIff(es: seq<Episode>)
    requires AllOk(es)
    ensures var s := TrackAll(AfterEachIteration, es);
      s.mem <= s.found && (s.found == s.mem <==> forall i: nat :: !FailureLast(es, i))
  {
    if es != [] {
      var n := |es| - 1;
      var front, e := es[..n], es[n];
      FoundIsWholeIff(front);
      if PartOf(AfterEachIteration, e).Some? { PartIsPart(AfterEachIteration, e); }
      FailureLastStep(es);
    }
  }

  lemma FailureLastStep(es: seq<Episode>)
    requires es != []
    ensures var front, e := es[..|es| - 1], es[|es| - 1];
      && (e.Fail? && e.replies != [] ==> FailureLast(es, |es| - 1))
      && (e.Turn? || e.Crash? || e.Restart? ==> forall i: nat :: !FailureLast(es, i))
      && (e.Prune? || (e.Fail? && e.replies == []) ==> forall i: nat :: FailureLast(es, i) <==> FailureLast(front, i))
  {
    var n := |es| - 1;
    forall i: nat ensures es[n].Turn? || es[n].Crash? || es[n].Restart? ==> !FailureLast(es, i) {
      assert i < n < |es| || i >= n;
    }
  }

  /** A resume returns at least the whole conversation, and exactly that unless the last turn to get a reply failed. */
  lemma ResumeIsWholeIff(t: string, ids: nat -> string, es: seq<Episode>)
    requires AllOk(es)
    ensures var s := LiveAll(AfterEachIteration, t, ids, es);
      s.mem <= Resumed(s.mine) && (Resumed(s.mine) == s.mem <==> forall i: nat :: !FailureLast(es, i))
  {
    TrackIs(AfterEachIteration, t, ids, es);
    FoundIsWholeIff(es);
  }

  /** Without failed turns, a resume between turns returns the whole conversation. */
  lemma ResumeIsWhole(t: string, ids: nat -> string, es: seq<Episode>)
    requires AllOk(es) && forall i :: 0 <= i < |es| ==> !es[i].Fail?
    ensures var s := LiveAll(AfterEachIteration, t, ids, es); Resumed(s.mine) == s.mem
  {
    ResumeIsWholeIff(t, ids, es);
  }

  // ----- what is never lost

  /** Nothing a completed turn added is ever lost again, whatever failures, crashes and restarts follow. */
  ghost predicate NothingLost(c: CheckpointStrategy, t: string, ids: nat -> string, es: seq<Episode>, i: nat)
    requires AllOk(es) && i <= |es|
  {
    LiveAll(c, t, ids, es[..i]).mem <= LiveAll(c, t, ids, es).mem
  }

  lemma {:induction false} NoTurnLost(t: string, ids: nat -> string, es: seq<Episode>, i: nat)
    requires AllOk(es) && i <= |es|
    ensures NothingLost(AfterEachIteration, t, ids, es, i)
    decreases |es|
  {
    if i == |es| {
      assert es[..i] == es;
    } else {
      var front, e := es[..|es| - 1], es[|es| - 1];
      NoTurnLost(t, ids, front, i);
      assert front[..i] == es[..i];
      ResumeIsWholeIff(t, ids, front);
      LiveIs(AfterEachIteration, t, ids, LiveAll(AfterEachIteration, t, ids, front), e);
    }
  }

  function Answered(user: Message): seq<Episode> { [Turn(user, [[]], [], 0), Restart] }

  /** The other strategies lose a turn that called no tool. */
  lemma AnswerIsLost(c: CheckpointStrategy, t: string, ids: nat -> string, user: Message)
    requires c != AfterEachIteration
    ensures AllOk(Answered(user)) && !NothingLost(c, t, ids, Answered(user), 1)
  {
    var es := Answered(user);
    assert es[..1] == [es[0]] && es[..1][..0] == [] && es[..|es| - 1] == es[..1];
    LiveIs(c, t, ids, Convo([], []), es[0]);
    TranscriptNonEmpty(user, [[]], []);
    assert LiveAll(c, t, ids, es[..1]) == Live(c, t, ids, Convo([], []), es[0]);
    assert LiveAll(c, t, ids, es).mem == [];
  }

  /** A checkpoint strategy keeps every completed turn exactly when it saves after each iteration. */
  lemma NoTurnLostIff(c: CheckpointStrategy, t: string, ids: nat -> string)
    ensures (forall es, i: nat :: AllOk(es) && i <= |es| ==> NothingLost(c, t, ids, es, i)) <==> c == AfterEachIteration
  {
    if c == AfterEachIteration {
      forall es, i: nat | AllOk(es) && i <= |es| ensures NothingLost(c, t, ids, es, i) { NoTurnLost(t, ids, es, i); }
    } else {
      AnswerIsLost(c, t, ids, Message(User, []));
      assert AllOk(Answered(Message(User, []))) && 1 <= |Answered(Message(User, []))|;
    }
  }

  // ----- many threads in one store

  /** Saving for one thread is invisible to the others, however their saves interleave. */
  lemma SavesSeparate(store: seq<Checkpoint>, c: CheckpointStrategy, t: string, prior: seq<Message>, user: Message,
                      replies: seq<seq<Message>>, tools: seq<Message>, ids: nat -> string, base: nat, u: string)
    requires |tools| <= |replies| <= |tools| + 1
    ensures var ss := Snapshots(c, t, prior, user, replies, tools, ids, base);
      ForThread(store + ss, u) == if u == t then ForThread(store, t) + ss else ForThread(store, u)
  {
    var ss := Snapshots(c, t, prior, user, replies, tools, ids, base);
    SnapshotsGrow(c, t, prior, user, replies, tools, ids, base);
    ForThreadAppend(store, ss, u);
    ForThreadOnly(ss, u);
  }
}
