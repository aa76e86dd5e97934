/** The session store: one file of message lines per agent, replaced through a temporary file.

    Two things can stop a session. When the process stops, the machine keeps running and a restart reads what
    the process had written. When the machine stops, only what was synced is certain to be there.
 */
module SessionStores {
  import opened Options
  import opened Transcripts

  /** A file's lines, and how many of them have been synced to stable storage. */
  datatype File = Absent | Present(lines: seq<Message>, synced: nat)

  /** The session file and its temporary sibling, as the process sees them. The directory is never synced:
      after the machine stops, the session's name may still denote one of the `earlier` files. */
  datatype Disk = Disk(main: File, tmp: File, earlier: seq<File>)

  function Lines(f: File): (r: seq<Message>)
  {
    match f case Absent => [] case Present(lines, _) => lines
  }

  function SyncedOf(f: File): (n: nat)
  {
    if f.Present? then f.synced else 0
  }

  predicate WellSynced(f: File)
  {
    f.Present? ==> f.synced <= |f.lines|
  }

  predicate FullySynced(f: File)
  {
    f.Present? ==> f.synced == |f.lines|
  }

  predicate ValidDisk(d: Disk)
  {
    WellSynced(d.main) && WellSynced(d.tmp) && forall f :: f in d.earlier ==> WellSynced(f)
  }

  // ---------------------------------------------------------------------------
  // What a restart loads after the machine stopped
  // ---------------------------------------------------------------------------

  /** What is left of a file: its synced lines, perhaps more of them, and perhaps a torn one after that. */
  datatype Remains = Remains(lines: seq<Message>, torn: bool)

  predicate Survives(f: File, r: Remains)
  {
    match f
    case Absent => r == Remains([], false)
    case Present(lines, synced) =>
      && synced <= |r.lines| && r.lines <= lines
      && (r.torn ==> |r.lines| < |lines|)
  }

  /** A line that cannot be parsed fails the whole load, and the session then starts empty. */
  function Reloaded(r: Remains): (ms: seq<Message>)
  {
    if r.torn then [] else r.lines
  }

  ghost predicate MayReload(f: File, ms: seq<Message>)
  {
    exists r :: Survives(f, r) && Reloaded(r) == ms
  }

  /** The files the session's name may denote after the machine stopped. */
  function Named(d: Disk): (r: seq<File>)
  {
    d.earlier + [d.main]
  }

  ghost predicate MayLoad(d: Disk, ms: seq<Message>)
  {
    exists f :: f in Named(d) && MayReload(f, ms)
  }

  lemma {:induction false} SyncedReloadsItself(f: File, ms: seq<Message>)
    requires FullySynced(f)
    ensures MayReload(f, ms) <==> ms == Lines(f)
  {
    assert Survives(f, Remains(Lines(f), false)) && Reloaded(Remains(Lines(f), false)) == Lines(f);
  }

  /** A file with lines that were not synced may be lost altogether. */
  lemma {:induction false} UnsyncedMayBeLost(f: File)
    requires WellSynced(f) && !FullySynced(f)
    ensures MayReload(f, []) && Lines(f) != []
  {
    var r := Remains(f.lines[..f.synced], true);
    assert Survives(f, r) && Reloaded(r) == [];
  }

  // ---------------------------------------------------------------------------
  // Replacing the history, one system call at a time
  // ---------------------------------------------------------------------------

  datatype Call = OpenTmp | WriteLine(m: Message) | SyncTmp | RenameTmp

  function Program(ms: seq<Message>): (p: seq<Call>)
    ensures |p| == |ms| + 3
  {
    [OpenTmp] + seq(|ms|, i requires 0 <= i < |ms| => WriteLine(ms[i])) + [SyncTmp, RenameTmp]
  }

  function Perform(d: Disk, c: Call): (r: Disk)
  {
    match c
    case OpenTmp => d.(tmp := Present([], 0))
    case WriteLine(m) => d.(tmp := Present(Lines(d.tmp) + [m], SyncedOf(d.tmp)))
    case SyncTmp => d.(tmp := if d.tmp.Present? then d.tmp.(synced := |d.tmp.lines|) else Absent)
    case RenameTmp => Disk(d.tmp, Absent, d.earlier + [d.main])
  }

  /** The disk after the first `n` calls. */
  function DiskAfter(d: Disk, ms: seq<Message>, n: nat): (r: Disk)
    requires n <= |Program(ms)|
  {
    if n == 0 then d else Perform(DiskAfter(d, ms, n - 1), Program(ms)[n - 1])
  }

  /** A record of the disk before each call and after the last one performed. */
  predicate TraceOf(d: Disk, ms: seq<Message>, trace: seq<Disk>)
  {
    0 < |trace| <= |Program(ms)| + 1 && forall i :: 0 <= i < |trace| ==> trace[i] == DiskAfter(d, ms, i)
  }

  lemma {:induction false} TraceExtends(d: Disk, ms: seq<Message>, trace: seq<Disk>)
    requires TraceOf(d, ms, trace) && |trace| <= |Program(ms)|
    ensures TraceOf(d, ms, trace + [Perform(trace[|trace| - 1], Program(ms)[|trace| - 1])])
  {
    assert DiskAfter(d, ms, |trace|) == Perform(DiskAfter(d, ms, |trace| - 1), Program(ms)[|trace| - 1]);
  }

  /** The disk at every point of a replacement: until the rename the session file is untouched; after it the
      name denotes a file all of whose lines are synced. */
  lemma {:induction false} DiskDuringReplace(d: Disk, ms: seq<Message>, n: nat)
    requires n <= |Program(ms)|
    ensures n < |Program(ms)| ==> DiskAfter(d, ms, n).main == d.main && DiskAfter(d, ms, n).earlier == d.earlier
    ensures 1 <= n <= |ms| + 1 ==> DiskAfter(d, ms, n).tmp == Present(ms[..n - 1], 0)
    ensures n == |ms| + 2 ==> DiskAfter(d, ms, n).tmp == Present(ms, |ms|)
    ensures n == |Program(ms)| ==> DiskAfter(d, ms, n) == Disk(Present(ms, |ms|), Absent, d.earlier + [d.main])
  {
    if n > 0 {
      DiskDuringReplace(d, ms, n - 1);
      assert ms[..|ms|] == ms;
      if 2 <= n <= |ms| + 1 {
        assert ms[..n - 1] == ms[..n - 2] + [ms[n - 2]];
      }
    }
  }

  /** Wherever the process stops during a replacement, a restart loads the old history until the rename and the
      new one after it, synced or not. */
  lemma {:induction false} ProcessStopDuringReplace(d: Disk, ms: seq<Message>, n: nat)
    requires n <= |Program(ms)|
    ensures Lines(DiskAfter(d, ms, n).main) == if n < |Program(ms)| then Lines(d.main) else ms
  {
    DiskDuringReplace(d, ms, n);
  }

  /** Wherever the machine stops during a replacement, a restart may load exactly what it might have loaded had the
      machine stopped before the replacement began and, once the rename was made, the new history. */
  lemma {:induction false} MachineStopDuringReplace(d: Disk, ms: seq<Message>, n: nat, loaded: seq<Message>)
    requires n <= |Program(ms)|
    ensures MayLoad(DiskAfter(d, ms, n), loaded) <==> MayLoad(d, loaded) || (n == |Program(ms)| && loaded == ms)
  {
    DiskDuringReplace(d, ms, n);
    var after := DiskAfter(d, ms, n);
    if n < |Program(ms)| {
      assert Named(after) == Named(d);
    } else {
      var written := Present(ms, |ms|);
      assert Named(after) == Named(d) + [written];
      SyncedReloadsItself(written, loaded);
      if MayLoad(d, loaded) {
        var f :| f in Named(d) && MayReload(f, loaded);
        assert f in Named(after);
      }
      if loaded == ms {
        assert written in Named(after);
      }
    }
  }

  /** The old history is certain: whichever file the name denotes, all its lines are synced and they are the
      lines of the session. */
  predicate Settled(d: Disk)
  {
    forall f :: f in Named(d) ==> FullySynced(f) && Lines(f) == Lines(d.main)
  }

  /** At every point of the replacement, whatever the machine left, a restart loads the old or the new history. */
  ghost predicate OldOrNew(d: Disk, ms: seq<Message>)
  {
    forall n, loaded :: 0 <= n <= |Program(ms)| && MayLoad(DiskAfter(d, ms, n), loaded) ==>
      loaded == Lines(d.main) || loaded == ms
  }

  lemma {:induction false} SettledLoadsItself(d: Disk, loaded: seq<Message>)
    requires Settled(d)
    ensures MayLoad(d, loaded) <==> loaded == Lines(d.main)
  {
    forall f | f in Named(d)
      ensures MayReload(f, loaded) <==> loaded == Lines(d.main)
    {
      SyncedReloadsItself(f, loaded);
    }
    assert d.main in Named(d);
  }

  lemma {:induction false} SettledIsOldOrNew(d: Disk, ms: seq<Message>)
    requires Settled(d)
    ensures OldOrNew(d, ms)
  {
    forall n, loaded | 0 <= n <= |Program(ms)| && MayLoad(DiskAfter(d, ms, n), loaded)
      ensures loaded == Lines(d.main) || loaded == ms
    {
      MachineStopDuringReplace(d, ms, n, loaded);
      SettledLoadsItself(d, loaded);
    }
  }

  /** On an unsettled disk some restart loads something else than the session's lines. */
  lemma {:induction false} UnsettledLoadsAnother(d: Disk) returns (loaded: seq<Message>)
    requires ValidDisk(d) && !Settled(d)
    ensures MayLoad(d, loaded) && loaded != Lines(d.main)
  {
    if !FullySynced(d.main) {
      UnsyncedMayBeLost(d.main);
      loaded := [];
      assert d.main in Named(d);
    } else {
      var f :| f in Named(d) && !(FullySynced(f) && Lines(f) == Lines(d.main));
      if Lines(f) != Lines(d.main) {
        loaded := Lines(f);
        assert Survives(f, Remains(Lines(f), false)) && Reloaded(Remains(Lines(f), false)) == loaded;
      } else {
        UnsyncedMayBeLost(f);
        loaded := [];
      }
    }
  }

  /** Replacing is safe against the machine stopping at any point, for every new history, if and only if the old
      history was settled when it began. */
  lemma {:induction false} OldOrNewExactlyWhenSettled(d: Disk)
    requires ValidDisk(d)
    ensures (forall ms :: OldOrNew(d, ms)) <==> Settled(d)
  {
    if Settled(d) {
      forall ms
        ensures OldOrNew(d, ms)
      {
        SettledIsOldOrNew(d, ms);
      }
    } else {
      var loaded := UnsettledLoadsAnother(d);
      var ms := loaded + [User("")];
      assert DiskAfter(d, ms, 0) == d && |loaded| != |ms|;
      assert !OldOrNew(d, ms);
    }
  }

  /** For one session file whose name is settled, and every new history that is not empty, it takes exactly that
      all its lines were synced. */
  lemma {:induction false} OldOrNewExactlyWhenSynced(d: Disk, ms: seq<Message>)
    requires ValidDisk(d) && d.earlier == [] && ms != []
    ensures OldOrNew(d, ms) <==> FullySynced(d.main)
  {
    assert Named(d) == [d.main];
    if FullySynced(d.main) {
      SettledIsOldOrNew(d, ms);
    } else {
      UnsyncedMayBeLost(d.main);
      assert d.main in Named(d);
      assert MayLoad(DiskAfter(d, ms, 0), []);
    }
  }

  // ---------------------------------------------------------------------------
  // Appending
  // ---------------------------------------------------------------------------

  /** Opening a file for appending creates it if it is missing. */
  function Opened(f: File): (r: File)
    ensures r.Present? && r.lines == Lines(f) && r.synced == SyncedOf(f)
  {
    if f.Present? then f else Present([], 0)
  }

  /** Lines are written to the end of the session file and not synced. */
  function Appended(d: Disk, ms: seq<Message>): (r: Disk)
  {
    if ms == [] then d else d.(main := Present(Lines(d.main) + ms, SyncedOf(d.main)))
  }

  /** The stored lines before each write of an append and after the last. */
  function Growth(stored: seq<Message>, written: seq<Message>): (r: seq<seq<Message>>)
    ensures |r| == |written| + 1 && r[|written|] == stored + written
  {
    assert written[..|written|] == written;
    seq(|written| + 1, i requires 0 <= i <= |written| => stored + written[..i])
  }

  lemma {:induction false} GrowthExtends(stored: seq<Message>, ms: seq<Message>, i: nat)
    requires i < |ms|
    ensures Growth(stored, ms[..i + 1]) == Growth(stored, ms[..i]) + [stored + ms[..i + 1]]
  {
    assert forall k :: 0 <= k <= i ==> ms[..i + 1][..k] == ms[..i][..k];
    assert ms[..i + 1][..i + 1] == ms[..i + 1];
  }

  /** An append settles nothing: even on a settled disk, a machine that stops after it may leave any number of the
      new lines, or no readable session at all. */
  lemma {:induction false} AppendUnsettles(d: Disk, ms: seq<Message>, j: nat)
    requires ValidDisk(d) && Settled(d) && ms != [] && j <= |ms|
    ensures !Settled(Appended(d, ms))
    ensures MayLoad(Appended(d, ms), Lines(d.main) + ms[..j]) && MayLoad(Appended(d, ms), [])
  {
    var after := Appended(d, ms);
    var f := after.main;
    assert f in Named(after) && d.main in Named(d);
    var r := Remains(Lines(d.main) + ms[..j], false);
    assert r.lines <= f.lines;
    assert Survives(f, r) && Reloaded(r) == Lines(d.main) + ms[..j];
    UnsyncedMayBeLost(f);
  }

  /** So after an append the next replacement is exposed: from the moment it starts, a restart may load neither the
      old history nor the new one. */
  lemma {:induction false} ReplaceAfterAppendMayLoseBoth(d: Disk, more: seq<Message>, ms: seq<Message>, n: nat)
    requires ValidDisk(d) && Settled(d) && more != [] && ms != [] && n <= |Program(ms)|
    ensures var before := Appended(d, more);
            MayLoad(DiskAfter(before, ms, n), []) && Lines(before.main) != [] && !OldOrNew(before, ms)
  {
    var before := Appended(d, more);
    AppendUnsettles(d, more, 0);
    MachineStopDuringReplace(before, ms, n, []);
    assert MayLoad(DiskAfter(before, ms, 0), []);
  }

  // ---------------------------------------------------------------------------
  // The store
  // ---------------------------------------------------------------------------

  class JsonlSessionStore {
    var disk: Disk
    var archives: seq<seq<Message>>
    /** Archive files cut short by a failed write; they hold no readable segment. */
    var fragments: nat

    ghost predicate Valid()
      reads this
    {
      ValidDisk(disk)
    }

    function Stored(): (r: seq<Message>)
      reads this
    {
      Lines(disk.main)
    }

    constructor (main: File)
      requires WellSynced(main)
      ensures Valid() && disk == Disk(main, Absent, []) && archives == [] && fragments == 0
    {
      disk := Disk(main, Absent, []);
      archives, fragments := [], 0;
    }

    /** No file is an empty history; a file that cannot be read or parsed is an error. */
    method Load(readable: bool) returns (r: Option<seq<Message>>)
      ensures r == if disk.main.Absent? || readable then Some(Stored()) else None
    {
      if disk.main.Absent? {
        r := Some([]);
      } else if readable {
        r := Some(disk.main.lines);
      } else {
        r := None;
      }
    }

    /** Writes line by line; a fault stops it after that many lines. Nothing is synced. The points are the stored
        lines before each write and at the end. */
    method Append(messages: seq<Message>, fault: Option<nat>) returns (ok: bool, points: seq<seq<Message>>)
      requires Valid()
      modifies this
      ensures Valid() && archives == old(archives) && fragments == old(fragments)
      ensures ok <==> fault.None? || fault.value >= |messages|
      ensures var written := if ok then messages else messages[..fault.value];
              && Stored() == old(Stored()) + written
              && (written != [] ==> disk == Appended(old(disk), written))
              && points == Growth(old(Stored()), written)
    {
      ok, points := true, [Stored()];
      if messages == [] {
        return;
      }
      disk := disk.(main := Opened(disk.main));
      ghost var start := disk;
      for i := 0 to |messages|
        invariant Valid() && archives == old(archives) && fragments == old(fragments)
        invariant disk == start.(main := start.main.(lines := start.main.lines + messages[..i]))
        invariant fault.Some? ==> i <= fault.value
        invariant points == Growth(old(Stored()), messages[..i])
      {
        if fault == Some(i) {
          return false, points;
        }
        GrowthExtends(old(Stored()), messages, i);
        assert messages[..i + 1] == messages[..i] + [messages[i]];
        Associate(start.main.lines, messages[..i], [messages[i]]);
        disk := disk.(main := disk.main.(lines := disk.main.lines + [messages[i]]));
        points := points + [disk.main.lines];
      }
      assert messages[..|messages|] == messages;
    }

    /** Performs the program call by call; a fault stops it before that call. The trace shows the disk
        before each call and at the end. */
    method Replace(messages: seq<Message>, fault: Option<nat>) returns (ok: bool, trace: seq<Disk>)
      requires Valid()
      modifies this
      ensures Valid() && archives == old(archives) && fragments == old(fragments)
      ensures ok <==> fault.None? || fault.value >= |Program(messages)|
      ensures Stored() == if ok then messages else old(Stored())
      ensures ok ==> FullySynced(disk.main) && disk.earlier == old(disk).earlier + [old(disk).main]
      ensures !ok ==> disk.main == old(disk).main && disk.earlier == old(disk).earlier
      ensures fault == Some(|messages| + 2) ==> disk.tmp == Absent
      ensures |trace| == 1 + if ok then |Program(messages)| else fault.value
      ensures TraceOf(old(disk), messages, trace)
    {
      var program := Program(messages);
      ok, trace := true, [disk];
      for n := 0 to |program|
        invariant archives == old(archives) && fragments == old(fragments)
        invariant |trace| == n + 1 && disk == trace[n] && TraceOf(old(disk), messages, trace)
        invariant fault.Some? ==> n <= fault.value
      {
        if fault == Some(n) {
          DiskDuringReplace(old(disk), messages, n);
          if program[n].RenameTmp? {
            disk := disk.(tmp := Absent);
          }
          return false, trace;
        }
        TraceExtends(old(disk), messages, trace);
        disk := Perform(disk, program[n]);
        trace := trace + [disk];
      }
      DiskDuringReplace(old(disk), messages, |program|);
    }

    /** One file per segment. A write that fails may leave part of a file behind. */
    method ArchiveSegment(segment: seq<Message>, writable: bool, leavesPart: bool) returns (ok: bool)
      modifies this
      ensures ok == writable && disk == old(disk)
      ensures archives == if ok then old(archives) + [segment] else old(archives)
      ensures fragments == old(fragments) + if !ok && leavesPart then 1 else 0
    {
      ok := writable;
      if writable {
        archives := archives + [segment];
      } else if leavesPart {
        fragments := fragments + 1;
      }
    }
  }
}
