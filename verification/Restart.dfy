/** Sessions that end anywhere, even inside a turn, and the sessions that follow them.

    The process stops; the machine does not. A restart finds what had been written, and loads it if it can.
 */
module Restarts {
  import opened Options
  import opened Transcripts
  import opened Contexts
  import opened Executors
  import opened SessionStores
  import opened PersistentLoops

  // ---------------------------------------------------------------------------
  // Stopping inside a turn
  // ---------------------------------------------------------------------------

  /** Archives and disk together end with what memory held, and possibly the beginning of what the turn added. */
  predicate Recovers(h: seq<Message>, delta: seq<Message>, p: Snapshot)
  {
    exists j :: 0 <= j <= |delta| && IsSuffix(NonSummary(h) + delta[..j], Archived(p.archives) + NonSummary(p.stored))
  }

  /** What a restart at this point finds, when `stored` was on disk as the turn began with `h` in memory. */
  predicate PointLaws(h: seq<Message>, stored: seq<Message>, delta: seq<Message>, p: Snapshot)
  {
    && (Covered(h, stored) ==> Recovers(h, delta, p))
    && (SummaryOnlyFirst(h) && SummaryOnlyFirst(stored) ==> SummaryOnlyFirst(p.stored))
    && (Grouped(h) && Grouped(stored) ==> Grouped(p.stored))
  }

  lemma {:induction false} SuffixUnder(a: seq<Message>, b: seq<Message>, more: seq<Message>)
    requires IsSuffix(a, b)
    ensures IsSuffix(a, more + b)
  {
    assert (more + b)[|more + b| - |a|..] == b[|b| - |a|..];
  }

  lemma {:induction false} RecoversNothingSaid(h: seq<Message>, delta: seq<Message>, p: Snapshot)
    requires IsSuffix(NonSummary(h), Archived(p.archives) + NonSummary(p.stored))
    ensures Recovers(h, delta, p)
  {
    assert NonSummary(h) + delta[..0] == NonSummary(h);
  }

  /** The disk still holds what it held as the turn began. */
  lemma {:induction false} PointBeforeRename(h: seq<Message>, stored: seq<Message>, delta: seq<Message>,
                                             archives: seq<seq<Message>>)
    ensures PointLaws(h, stored, delta, Snapshot(stored, archives))
    ensures Covered(h, stored) ==> IsSuffix(NonSummary(h), Archived(archives) + NonSummary(stored))
  {
    if Covered(h, stored) {
      SuffixUnder(NonSummary(h), NonSummary(stored), Archived(archives));
      RecoversNothingSaid(h, delta, Snapshot(stored, archives));
    }
  }

  /** The summarised history is on disk, and the prefix it replaced in the archives. */
  lemma {:induction false} PointAfterRename(h: seq<Message>, stored: seq<Message>, delta: seq<Message>,
                                            archives: seq<seq<Message>>, s: Summarization)
    requires SummarizedAt(h, s, s.last + 1)
    ensures var kept := Effective(h, Some(s));
            && PointLaws(h, stored, delta, Snapshot(kept, archives + [s.archived]))
            && IsSuffix(NonSummary(h), Archived(archives + [s.archived]) + NonSummary(kept))
  {
    var kept := Effective(h, Some(s));
    CompactionLaws(h, s.summary, s.last + 1);
    ArchivesRecover(h, archives, s.archived, kept);
    RecoversNothingSaid(h, delta, Snapshot(kept, archives + [s.archived]));
  }

  lemma {:induction false} ArchivesRecover(h: seq<Message>, archives: seq<seq<Message>>, segment: seq<Message>,
                                           kept: seq<Message>)
    requires NonSummary(h) == NonSummary(segment) + NonSummary(kept)
    ensures IsSuffix(NonSummary(h), Archived(archives + [segment]) + NonSummary(kept))
  {
    ArchivedOfAppend(archives, segment);
    Associate(Archived(archives), NonSummary(segment), NonSummary(kept));
    SuffixUnder(NonSummary(h), NonSummary(h), Archived(archives));
  }

  /** Part of what was said has been appended behind `base`. */
  lemma {:induction false} PointInAppend(h: seq<Message>, stored: seq<Message>, delta: seq<Message>,
                                         base: seq<Message>, archives: seq<seq<Message>>, j: nat)
    requires SummaryFree(delta) && Grouped(delta) && j <= |delta|
    requires PointLaws(h, stored, delta, Snapshot(base, archives))
    requires Covered(h, stored) ==> IsSuffix(NonSummary(h), Archived(archives) + NonSummary(base))
    ensures PointLaws(h, stored, delta, Snapshot(base + delta[..j], archives))
  {
    StoreLaws(base, delta, j);
    if Covered(h, stored) {
      var said := delta[..j];
      NonSummaryOfAppend(base, said);
      NonSummaryOfFree(said);
      SuffixOfAppend(NonSummary(h), Archived(archives) + NonSummary(base), said);
      Associate(Archived(archives), NonSummary(base), said);
      assert IsSuffix(NonSummary(h) + delta[..j], Archived(archives) + NonSummary(base + said));
    }
  }

  lemma {:induction false} CompactPointKeeps(h: seq<Message>, stored: seq<Message>, archives: seq<seq<Message>>,
                                             c: Option<Summarization>, fault: Option<nat>, delta: seq<Message>, i: nat)
    requires c.Some? ==> SummarizedAt(h, c.value, c.value.last + 1)
    requires i < |PointsWith(stored, archives, h, c, fault)|
    ensures PointLaws(h, stored, delta, PointsWith(stored, archives, h, c, fault)[i])
  {
    if i == 0 {
      PointBeforeRename(h, stored, delta, archives);
    } else if i <= |Program(Effective(h, c))| {
      PointBeforeRename(h, stored, delta, archives + [c.value.archived]);
    } else {
      PointAfterRename(h, stored, delta, archives, c.value);
    }
  }

  /** The disk as the append finds it. */
  lemma {:induction false} PointBeforeAppend(h: seq<Message>, stored: seq<Message>, archives: seq<seq<Message>>,
                                             setup: Setup, turn: Turn, delta: seq<Message>)
    ensures var base, archives' := StoredCompact(stored, h, setup, turn), ArchivesAfter(archives, h, setup, turn);
            && PointLaws(h, stored, delta, Snapshot(base, archives'))
            && (Covered(h, stored) ==> IsSuffix(NonSummary(h), Archived(archives') + NonSummary(base)))
  {
    var c := Compaction(h, setup, turn);
    PointBeforeRename(h, stored, delta, ArchivesAfter(archives, h, setup, turn));
    if c.Some? {
      PointAfterRename(h, stored, delta, archives, c.value);
    }
  }

  /** Wherever the process stops inside a turn, whatever the turn meets: archives and disk still end with all that
      memory held as the turn began, the summary is still at the front, and results are behind their calls. */
  lemma {:induction false} EveryPointKeeps(h: seq<Message>, stored: seq<Message>, archives: seq<seq<Message>>,
                                           setup: Setup, turn: Turn, i: nat)
    requires i < |TurnPoints(stored, archives, h, setup, turn)|
    ensures PointLaws(h, stored, TurnOf(h, setup, turn).delta, TurnPoints(stored, archives, h, setup, turn)[i])
  {
    var delta := TurnOf(h, setup, turn).delta;
    var before := CompactPoints(stored, archives, h, setup, turn);
    if i < |before| {
      CompactPointKeeps(h, stored, archives, Compaction(h, setup, turn), turn.replaceFault, delta, i);
    } else {
      AppendPointKeeps(h, stored, archives, setup, turn, delta, i - |before|,
                       TurnPoints(stored, archives, h, setup, turn)[i]);
    }
  }

  lemma {:induction false} AppendPointKeeps(h: seq<Message>, stored: seq<Message>, archives: seq<seq<Message>>,
                                            setup: Setup, turn: Turn, delta: seq<Message>, j: nat, p: Snapshot)
    requires delta == Spoken(Shown(h, setup, turn), setup, turn).delta && j <= |Written(delta, turn.appendFault)|
    requires p == Snapshot(StoredCompact(stored, h, setup, turn) + Written(delta, turn.appendFault)[..j],
                           ArchivesAfter(archives, h, setup, turn))
    ensures PointLaws(h, stored, delta, p)
  {
    assert Written(delta, turn.appendFault)[..j] == delta[..j];
    SpokenLaws(Shown(h, setup, turn), setup, turn);
    PointBeforeAppend(h, stored, archives, setup, turn, delta);
    PointInAppend(h, stored, delta, StoredCompact(stored, h, setup, turn), ArchivesAfter(archives, h, setup, turn), j);
  }

  // ---------------------------------------------------------------------------
  // Sessions in a row
  // ---------------------------------------------------------------------------

  /** One life of the process: whether it could read the session, the messages it handled, and where in a further
      one it stopped, if it did. */
  datatype Episode = Episode(readable: bool, turns: seq<Turn>, broken: Option<(Turn, nat)>)

  function SessionOf(disk: Snapshot, setup: Setup, e: Episode): (s: Session)
  {
    AfterTurns(Start(if e.readable then disk.stored else [], disk.stored, disk.archives), setup, e.turns)
  }

  /** What the episode added in the message it did not finish. */
  function LastDelta(s: Session, setup: Setup, broken: Option<(Turn, nat)>): (r: seq<Message>)
  {
    if broken.None? then [] else TurnOf(s.run.memory, setup, broken.value.0).delta
  }

  function Requests(s: Session, setup: Setup, broken: Option<(Turn, nat)>): (r: seq<seq<Message>>)
  {
    if broken.None? then s.run.requests else s.run.requests + TurnOf(s.run.memory, setup, broken.value.0).requests
  }

  /** What the episode leaves on disk. */
  function Left(s: Session, setup: Setup, broken: Option<(Turn, nat)>): (r: Snapshot)
  {
    if broken.None? then Snapshot(s.stored, s.archives)
    else
      var points := TurnPoints(s.stored, s.archives, s.run.memory, setup, broken.value.0);
      points[StopsAt(broken.value.1, points)]
  }

  function StopsAt(n: nat, points: seq<Snapshot>): (i: nat)
    requires points != []
    ensures i < |points|
  {
    if n < |points| then n else |points| - 1
  }

  predicate EpisodeLaws(managed: bool, disk: Snapshot, requests: seq<seq<Message>>, unparted: bool, left: Snapshot)
  {
    && (SummaryOnlyFirst(disk.stored) ==> SummaryOnlyFirst(left.stored) && (managed ==> AllSummaryFree(requests)))
    && (Grouped(disk.stored) && unparted ==> Grouped(left.stored) && AllGrouped(requests))
  }

  /** After an episode whose appends went through, archives and disk end with the conversation its memory held. */
  lemma {:induction false} EpisodeRecovers(disk: Snapshot, setup: Setup, e: Episode)
    requires !SessionOf(disk, setup, e).run.appendFailed
    ensures var s := SessionOf(disk, setup, e);
            Recovers(s.run.memory, LastDelta(s, setup, e.broken), Left(s, setup, e.broken))
  {
    var s := SessionOf(disk, setup, e);
    EveryRunKeepsLaws(if e.readable then disk.stored else [], disk.stored, disk.archives, setup, e.turns);
    if e.broken.None? {
      PointBeforeRename(s.run.memory, s.stored, [], s.archives);
    } else {
      var points := TurnPoints(s.stored, s.archives, s.run.memory, setup, e.broken.value.0);
      EveryPointKeeps(s.run.memory, s.stored, s.archives, setup, e.broken.value.0, StopsAt(e.broken.value.1, points));
    }
  }

  /** From the laws of the finished messages to those of the episode, at a point of the unfinished one. */
  lemma {:induction false} LawsAtPoint(managed: bool, disk: Snapshot, run: History, earlier: seq<Message>,
                                       stored: seq<Message>, archived: seq<Message>, r: Handled, p: Snapshot)
    requires RunLaws(managed, run, disk.stored, earlier, stored, archived)
    requires SendsInOrder(managed, run.memory, r) && PointLaws(run.memory, stored, r.delta, p)
    ensures EpisodeLaws(managed, disk, run.requests + r.requests, !run.orphaned, p)
  {
  }

  lemma {:induction false} SessionKeepsLaws(disk: Snapshot, s: Session, setup: Setup, broken: Option<(Turn, nat)>,
                                            earlier: seq<Message>, left: Snapshot)
    requires RunLaws(setup.managed, s.run, disk.stored, earlier, s.stored, Archived(s.archives))
    requires left == Left(s, setup, broken)
    ensures EpisodeLaws(setup.managed, disk, Requests(s, setup, broken), !s.run.orphaned, left)
  {
    if broken.Some? {
      var h, turn := s.run.memory, broken.value.0;
      var points := TurnPoints(s.stored, s.archives, h, setup, turn);
      EveryPointKeeps(h, s.stored, s.archives, setup, turn, StopsAt(broken.value.1, points));
      TurnSendsInOrder(h, setup, turn);
      LawsAtPoint(setup.managed, disk, s.run, earlier, s.stored, Archived(s.archives), TurnOf(h, setup, turn), left);
    }
  }

  lemma {:induction false} EpisodeKeepsLaws(disk: Snapshot, setup: Setup, e: Episode)
    ensures var s := SessionOf(disk, setup, e);
            EpisodeLaws(setup.managed, disk, Requests(s, setup, e.broken), !s.run.orphaned, Left(s, setup, e.broken))
  {
    var s := SessionOf(disk, setup, e);
    EveryRunKeepsLaws(if e.readable then disk.stored else [], disk.stored, disk.archives, setup, e.turns);
    SessionKeepsLaws(disk, s, setup, e.broken, Archived(disk.archives), Left(s, setup, e.broken));
  }

  /** Everything a row of episodes sent to the model and left on disk; `unparted` if no turn of theirs parted a
      result from its call. */
  datatype Life = Life(requests: seq<seq<Message>>, unparted: bool, left: Snapshot)

  function Lived(disk: Snapshot, setup: Setup, es: seq<Episode>): (r: Life)
    decreases |es|
  {
    if es == [] then Life([], true, disk)
    else
      var s := SessionOf(disk, setup, es[0]);
      var rest := Lived(Left(s, setup, es[0].broken), setup, es[1..]);
      Life(Requests(s, setup, es[0].broken) + rest.requests, !s.run.orphaned && rest.unparted, rest.left)
  }

  /** Over any number of lives of the process, each stopped anywhere: from a session with its summary at the front no
      summary reaches the model of a managed loop, and from a grouped session, unless trimming parted a result from
      its call, no result reaches it without its call. */
  lemma {:induction false} EveryLifeKeepsLaws(disk: Snapshot, setup: Setup, es: seq<Episode>)
    ensures var r := Lived(disk, setup, es);
            EpisodeLaws(setup.managed, disk, r.requests, r.unparted, r.left)
    decreases |es|
  {
    if es != [] {
      EpisodeKeepsLaws(disk, setup, es[0]);
      EveryLifeKeepsLaws(Left(SessionOf(disk, setup, es[0]), setup, es[0].broken), setup, es[1..]);
    }
  }
}
