/** Self-update with automatic rollback: the executable, the kept previous binary and the
    update record on disk, and the life of the processes that run it. */
module SelfUpdate {
  import opened Text

  const MaxUnhealthyStarts: nat := 3

  /** A program, told apart by its checksum. */
  datatype Binary = Binary(sha: string)

  datatype Record = Record(pending: string, starts: nat, rejected: string)
  datatype Disk = Disk(exe: Binary, previous: Option<Binary>, record: Record)

  /** A release whose metadata, signature and target have been accepted. */
  datatype Release = Release(version: string, binary: Binary)

  /** What became of <exe>.previous during a swap: the running binary was linked or copied
      there, nothing is there, or neither removing nor copying worked. */
  datatype Keep = Kept | Gone | Stale

  // ---------------------------------------------------------------------- operations

  function Write(d: Disk, r: Record, ok: bool): Disk {
    if ok then d.(record := r) else d
  }

  function Swap(d: Disk, binary: Binary, keep: Keep, renamed: bool): Disk {
    d.(previous := match keep case Kept => Some(d.exe) case Gone => None case Stale => d.previous,
       exe := if renamed then binary else d.exe)
  }

  function Install(d: Disk, r: Release, keep: Keep, renamed: bool, ok: bool): Disk {
    var swapped := Swap(d, r.binary, keep, renamed);
    if renamed then Write(swapped, swapped.record.(pending := r.version, starts := 0), ok) else swapped
  }

  /** Whether an unforced update gets as far as downloading. */
  predicate Wants(d: Disk, r: Release) {
    d.exe != r.binary && !(d.record.rejected != "" && EqualFold(d.record.rejected, r.version))
  }

  function Confirm(d: Disk, ok: bool): Disk {
    if d.record.pending == "" then d else Write(d, Record("", 0, d.record.rejected), ok)
  }

  /** Whether a rollback puts a binary back, which also ends the process. */
  predicate Restores(d: Disk, healthy: bool, restored: bool) {
    d.record.pending != "" && !healthy && d.previous.Some? && restored
  }

  function RollBack(d: Disk, healthy: bool, restored: bool, ok: bool): Disk {
    if d.record.pending == "" || healthy then d
    else if d.previous.None? then Write(d, Record("", 0, d.record.rejected), ok)
    else if !restored then d
    else Write(d.(exe := d.previous.value, previous := None), Record("", 0, d.record.pending), ok)
  }

  predicate Exhausted(d: Disk) {
    d.record.pending != "" && d.record.starts + 1 > MaxUnhealthyStarts
  }

  function CheckPending(d: Disk, restored: bool, ok: bool): Disk {
    if d.record.pending == "" then d
    else if Exhausted(d) then RollBack(d, false, restored, ok)
    else Write(d, d.record.(starts := d.record.starts + 1), ok)
  }

  class UpdateHost {
    var exe: Binary
    var previous: Option<Binary>
    var record: Record
    var healthy: bool

    function OnDisk(): Disk
      reads this
    {
      Disk(exe, previous, record)
    }

    constructor (d: Disk)
      ensures OnDisk() == d && !healthy
    {
      exe, previous, record, healthy := d.exe, d.previous, d.record, false;
    }

    method WriteRecord(r: Record, ok: bool)
      modifies this`record
      ensures OnDisk() == Write(old(OnDisk()), r, ok)
    {
      if ok {
        record := r;
      }
    }

    method SwapExecutable(binary: Binary, keep: Keep, renamed: bool)
      modifies this`exe, this`previous
      ensures OnDisk() == Swap(old(OnDisk()), binary, keep, renamed)
    {
      if keep.Gone? {
        previous := None;
      } else if keep.Kept? {
        previous := Some(exe);
      }
      if renamed {
        exe := binary;
      }
    }

    method InstallVerified(r: Release, trialOk: bool, keep: Keep, renamed: bool, ok: bool) returns (installed: bool)
      modifies this`exe, this`previous, this`record
      ensures installed <==> trialOk && renamed
      ensures OnDisk() == if trialOk then Install(old(OnDisk()), r, keep, renamed, ok) else old(OnDisk())
    {
      if !trialOk {
        return false;
      }
      SwapExecutable(r.binary, keep, renamed);
      if !renamed {
        return false;
      }
      WriteRecord(record.(pending := r.version, starts := 0), ok);
      return true;
    }

    /** Returns whether the process exits. */
    method RollBackUpdate(restored: bool, ok: bool) returns (exits: bool)
      modifies this`exe, this`previous, this`record
      ensures exits <==> Restores(old(OnDisk()), healthy, restored)
      ensures OnDisk() == RollBack(old(OnDisk()), healthy, restored, ok)
    {
      if record.pending == "" || healthy {
        return false;
      }
      if previous.None? {
        WriteRecord(Record("", 0, record.rejected), ok);
        return false;
      }
      if !restored {
        return false;
      }
      exe, previous := previous.value, None;
      WriteRecord(Record("", 0, record.pending), ok);
      return true;
    }

    /** Returns whether the process exits, and whether the health deadline is watched. */
    method CheckPendingUpdate(restored: bool, ok: bool) returns (exits: bool, watch: bool)
      requires !healthy
      modifies this`exe, this`previous, this`record
      ensures OnDisk() == CheckPending(old(OnDisk()), restored, ok)
      ensures exits <==> Exhausted(old(OnDisk())) && Restores(old(OnDisk()), false, restored)
      ensures watch <==> old(OnDisk()).record.pending != "" && !Exhausted(old(OnDisk()))
    {
      if record.pending == "" {
        return false, false;
      }
      var starts := record.starts + 1;
      if starts > MaxUnhealthyStarts {
        exits := RollBackUpdate(restored, ok);
        return exits, false;
      }
      WriteRecord(record.(starts := starts), ok);
      return false, true;
    }

    method ConfirmHealthy(ok: bool)
      modifies this`record, this`healthy
      ensures healthy
      ensures OnDisk() == if old(healthy) then old(OnDisk()) else Confirm(old(OnDisk()), ok)
    {
      if healthy {
        return;
      }
      healthy := true;
      if record.pending == "" {
        return;
      }
      WriteRecord(Record("", 0, record.rejected), ok);
    }
  }

  // --------------------------------------------------------------------------- runs

  /** Which of a start's file operations work. */
  datatype Works = Works(checked: bool, restored: bool, keep: Keep, renamed: bool, installed: bool)

  datatype Event =
    | Start(offered: bool, trialOk: bool, works: Works)
    | Deadline(restored: bool, ok: bool)
    | Publish(ok: bool)
    | Stop

  datatype Process = Process(runs: Binary, watch: bool, healthy: bool)

  /** The host, with three counts: installs of the release, starts of its binary, and
      rollbacks whose rejection record was not written. */
  datatype World = World(disk: Disk, up: Option<Process>, installs: nat, starts: nat, lost: nat)

  function AfterRollBack(w: World, d: Disk, ok: bool): World {
    World(d, None, w.installs, w.starts, if ok then w.lost else w.lost + 1)
  }

  /** What follows a start's check: the unforced update, then running. */
  function Continue(w: World, r: Release, runs: Binary, watch: bool, offered: bool, trialOk: bool, f: Works): World {
    if !(offered && Wants(w.disk, r) && trialOk) then w.(up := Some(Process(runs, watch, false)))
    else
      var d := Install(w.disk, r, f.keep, f.renamed, f.installed);
      if f.renamed then w.(disk := d, up := None, installs := w.installs + 1)
      else w.(disk := d, up := Some(Process(runs, watch, false)))
  }

  function Started(w: World, r: Release, offered: bool, trialOk: bool, f: Works): World {
    var d := w.disk;
    var counted := w.(starts := if d.exe == r.binary then w.starts + 1 else w.starts);
    var checked := CheckPending(d, f.restored, f.checked);
    if Exhausted(d) && Restores(d, false, f.restored) then AfterRollBack(counted, checked, f.checked)
    else
      Continue(counted.(disk := checked), r, d.exe, d.record.pending != "" && !Exhausted(d), offered, trialOk, f)
  }

  function Expired(w: World, p: Process, restored: bool, ok: bool): World {
    var d := RollBack(w.disk, p.healthy, restored, ok);
    if Restores(w.disk, p.healthy, restored) then AfterRollBack(w, d, ok)
    else w.(disk := d, up := Some(p.(watch := false)))
  }

  function Step(w: World, r: Release, e: Event): World {
    match e
    case Start(offered, trialOk, f) => if w.up.None? then Started(w, r, offered, trialOk, f) else w
    case Deadline(restored, ok) => if w.up.Some? && w.up.value.watch then Expired(w, w.up.value, restored, ok) else w
    case Publish(ok) =>
      if w.up.None? || w.up.value.healthy then w
      else w.(disk := Confirm(w.disk, ok), up := Some(w.up.value.(healthy := true)))
    case Stop => w.(up := None)
  }

  function Run(w: World, r: Release, es: seq<Event>): World
    decreases |es|
  {
    if es == [] then w else Step(Run(w, r, Front(es)), r, Last(es))
  }

  // ---------------------------------------------------------- installs, any failures

  function AtMost(w: World, r: Release): nat {
    w.lost + if w.disk.record.rejected == r.version || w.disk.exe == r.binary then 1 else 0
  }

  ghost predicate InstallsBounded(w: World, r: Release) {
    && w.installs <= AtMost(w, r)
    && (w.disk.record.pending == "" || w.disk.record.pending == r.version)
  }

  lemma RollBackBounded(w: World, r: Release, healthy: bool, restored: bool, ok: bool)
    requires InstallsBounded(w, r)
    ensures var d := RollBack(w.disk, healthy, restored, ok);
      InstallsBounded(if Restores(w.disk, healthy, restored) then AfterRollBack(w, d, ok) else w.(disk := d), r)
  {
  }

  lemma ContinueBounded(w: World, r: Release, runs: Binary, watch: bool, offered: bool, trialOk: bool, f: Works)
    requires InstallsBounded(w, r) && r.version != ""
    ensures InstallsBounded(Continue(w, r, runs, watch, offered, trialOk, f), r)
  {
  }

  lemma StartBounded(w: World, r: Release, offered: bool, trialOk: bool, f: Works)
    requires InstallsBounded(w, r) && r.version != ""
    ensures InstallsBounded(Started(w, r, offered, trialOk, f), r)
  {
    var d := w.disk;
    var counted := w.(starts := if d.exe == r.binary then w.starts + 1 else w.starts);
    var checked := CheckPending(d, f.restored, f.checked);
    RollBackBounded(counted, r, false, f.restored, f.checked);
    assert !(Exhausted(d) && Restores(d, false, f.restored)) ==> InstallsBounded(counted.(disk := checked), r);
    if !(Exhausted(d) && Restores(d, false, f.restored)) {
      ContinueBounded(counted.(disk := checked), r, d.exe, d.record.pending != "" && !Exhausted(d), offered, trialOk, f);
    }
  }

  lemma StepBounded(w: World, r: Release, e: Event)
    requires InstallsBounded(w, r) && r.version != ""
    ensures InstallsBounded(Step(w, r, e), r)
  {
    match e
    case Start(offered, trialOk, f) =>
      StartBounded(w, r, offered, trialOk, f);
    case Deadline(restored, ok) =>
      if w.up.Some? {
        RollBackBounded(w, r, w.up.value.healthy, restored, ok);
      }
    case Publish(ok) =>
    case Stop =>
  }

  ghost predicate Settled(w: World) {
    w.up.None? && w.disk.record.pending == "" && w.installs == 0 && w.starts == 0 && w.lost == 0
  }

  /** Whatever fails and whether or not the release ever reaches the Hub, it is installed at
      most once more than there are rollbacks whose rejection record was lost. */
  lemma {:induction false} InstalledOncePerLostRecord(w: World, r: Release, es: seq<Event>)
    requires Settled(w) && r.version != ""
    ensures Run(w, r, es).installs <= 1 + Run(w, r, es).lost
    ensures InstallsBounded(Run(w, r, es), r)
    decreases |es|
  {
    if es != [] {
      InstalledOncePerLostRecord(w, r, Front(es));
      StepBounded(Run(w, r, Front(es)), r, Last(es));
    }
  }

  // ------------------------------------------------------------ no failures: phases

  predicate AllWork(f: Works) {
    f.checked && f.restored && f.keep.Kept? && f.renamed && f.installed
  }

  /** Every file operation of the step works, and the release's binary never publishes. */
  ghost predicate Smooth(w: World, r: Release, e: Event) {
    match e
    case Start(_, _, f) => AllWork(f)
    case Deadline(restored, ok) => restored && ok
    case Publish(ok) => ok && (w.up.Some? ==> w.up.value.runs != r.binary)
    case Stop => true
  }

  ghost predicate Before(w: World, r: Release, was: Binary) {
    && w.disk.exe == was && w.disk.record.pending == "" && w.disk.record.rejected != r.version
    && w.installs == 0 && w.starts == 0 && (w.up.Some? ==> w.up.value.runs == was)
  }

  /** The release is on trial; its record counts its starts. */
  ghost predicate OnTrial(w: World, r: Release, was: Binary) {
    && w.disk.exe == r.binary && w.disk.previous == Some(was)
    && w.disk.record.pending == r.version && w.disk.record.starts == w.starts <= MaxUnhealthyStarts
    && w.installs == 1
    && (w.up.Some? ==> w.up.value.runs == r.binary && !w.up.value.healthy)
  }

  /** The old binary is back and the release is refused. */
  ghost predicate Refused(w: World, r: Release, was: Binary) {
    && w.disk.exe == was && w.disk.record.pending == "" && w.disk.record.rejected == r.version
    && w.installs <= 1 && w.starts <= MaxUnhealthyStarts + 1
    && (w.up.Some? ==> w.up.value.runs == was)
  }

  ghost predicate InPhase(w: World, r: Release, was: Binary) {
    Before(w, r, was) || OnTrial(w, r, was) || Refused(w, r, was)
  }

  lemma BeforeSteps(w: World, r: Release, e: Event, was: Binary)
    requires Before(w, r, was) && Smooth(w, r, e) && r.binary != was && r.version != ""
    ensures Before(Step(w, r, e), r, was) || OnTrial(Step(w, r, e), r, was)
  {
  }

  lemma OnTrialSteps(w: World, r: Release, e: Event, was: Binary)
    requires OnTrial(w, r, was) && Smooth(w, r, e) && r.binary != was && r.version != ""
    ensures OnTrial(Step(w, r, e), r, was) || Refused(Step(w, r, e), r, was)
  {
  }

  /** Refusal is for good, and no further start runs the release. */
  lemma RefusedSteps(w: World, r: Release, e: Event, was: Binary)
    requires Refused(w, r, was) && Smooth(w, r, e) && r.binary != was && r.version != ""
    ensures Refused(Step(w, r, e), r, was)
    ensures Step(w, r, e).installs == w.installs && Step(w, r, e).starts == w.starts
  {
  }

  ghost predicate AllSmooth(w: World, r: Release, es: seq<Event>)
    decreases |es|
  {
    es != [] ==> AllSmooth(w, r, Front(es)) && Smooth(Run(w, r, Front(es)), r, Last(es))
  }

  /** No update loop: a release that never publishes is installed at most once and started at
      most four times; after a fourth start, or any rollback, the old binary runs and the
      release stays refused. */
  lemma {:induction false} NoUpdateLoop(w: World, r: Release, es: seq<Event>)
    requires Settled(w) && r.version != "" && r.binary != w.disk.exe && AllSmooth(w, r, es)
    ensures InPhase(Run(w, r, es), r, w.disk.exe)
    ensures Run(w, r, es).installs <= 1 && Run(w, r, es).starts <= MaxUnhealthyStarts + 1
    ensures Run(w, r, es).starts == MaxUnhealthyStarts + 1 ==> Refused(Run(w, r, es), r, w.disk.exe)
    decreases |es|
  {
    if es != [] {
      NoUpdateLoop(w, r, Front(es));
      var v := Run(w, r, Front(es));
      if Before(v, r, w.disk.exe) {
        BeforeSteps(v, r, Last(es), w.disk.exe);
      } else if OnTrial(v, r, w.disk.exe) {
        OnTrialSteps(v, r, Last(es), w.disk.exe);
      } else {
        RefusedSteps(v, r, Last(es), w.disk.exe);
      }
    }
  }

  // ------------------------------------------------------- when a rollback can happen

  const Fine := Works(true, true, Kept, true, true)

  /** A start with the release on offer, and the end of that process. */
  function Restart(w: World, r: Release): World {
    Step(Step(w, r, Start(true, true, Fine)), r, Stop)
  }

  function Restarts(w: World, r: Release, n: nat): World {
    if n == 0 then w else Restart(Restarts(w, r, n - 1), r)
  }

  predicate Quiet(w: World, r: Release) {
    w.up.None? && w.disk.record.pending == "" && !Wants(w.disk, r)
  }

  lemma QuietRestarts(w: World, r: Release)
    requires Quiet(w, r)
    ensures Quiet(Restart(w, r), r) && Restart(w, r).disk == w.disk
  {
  }

  ghost predicate Tried(w: World, r: Release, previous: Option<Binary>, starts: nat) {
    w.up.None? && w.disk.exe == r.binary && w.disk.previous == previous
    && w.disk.record.pending == r.version && w.disk.record.starts == starts
  }

  lemma TriedRestarts(w: World, r: Release, previous: Option<Binary>, starts: nat)
    requires Tried(w, r, previous, starts) && r.version != "" && starts <= MaxUnhealthyStarts
    ensures starts < MaxUnhealthyStarts ==> Tried(Restart(w, r), r, previous, starts + 1)
    ensures starts == MaxUnhealthyStarts ==>
      Quiet(Restart(w, r), r) && Restart(w, r).disk.exe == if previous.Some? then previous.value else r.binary
  {
  }

  lemma {:induction false} AfterRestarts(w: World, r: Release, previous: Option<Binary>, n: nat)
    requires Tried(w, r, previous, 0) && r.version != ""
    ensures var v := Restarts(w, r, n);
      if n <= MaxUnhealthyStarts then Tried(v, r, previous, n)
      else Quiet(v, r) && v.disk.exe == if previous.Some? then previous.value else r.binary
  {
    if n > 0 {
      AfterRestarts(w, r, previous, n - 1);
      if n - 1 <= MaxUnhealthyStarts {
        TriedRestarts(Restarts(w, r, n - 1), r, previous, n - 1);
      } else {
        QuietRestarts(Restarts(w, r, n - 1), r);
      }
    }
  }

  lemma {:induction false} QuietStays(w: World, r: Release, n: nat)
    requires Quiet(w, r)
    ensures Restarts(w, r, n).disk == w.disk && Quiet(Restarts(w, r, n), r)
  {
    if n > 0 {
      QuietStays(w, r, n - 1);
      QuietRestarts(Restarts(w, r, n - 1), r);
    }
  }

  /** What is kept and recorded by an install decides its rollback: once a release that never
      publishes has been started four times or more, the binary it replaced is back exactly
      when the pending record was written and that binary was kept (or an identical one was
      there before and could not be removed). */
  lemma RolledBackExactly(w: World, r: Release, keep: Keep, recorded: bool, n: nat)
    requires Settled(w) && r.version != "" && Wants(w.disk, r) && n > MaxUnhealthyStarts
    ensures var installed := Step(w, r, Start(true, true, Fine.(keep := keep, installed := recorded)));
      Restarts(installed, r, n).disk.exe == w.disk.exe
      <==> recorded && (keep.Kept? || (keep.Stale? && w.disk.previous == Some(w.disk.exe)))
  {
    var v := Step(w, r, Start(true, true, Fine.(keep := keep, installed := recorded)));
    if recorded {
      AfterRestarts(v, r, v.disk.previous, n);
    } else {
      QuietStays(v, r, n);
    }
  }

  /** The bound on installs is met: one lost rejection record, two installs. */
  lemma LostRejectionReinstalls(w: World, r: Release)
    requires Settled(w) && r.version != "" && Wants(w.disk, r)
    ensures var v := Step(Step(Step(w, r, Start(true, true, Fine)), r, Start(true, true, Fine)), r, Deadline(true, false));
      v.lost == 1 && Step(v, r, Start(true, true, Fine)).installs == 2
  {
  }

  // ---------------------------------------------------------- good releases do get in

  /** At a start whose check lets it go on, an offered release that is neither the running
      binary nor the rejected version is installed: its binary in place, the old one kept, its
      version on trial. */
  lemma OfferedIsInstalled(w: World, r: Release)
    requires w.up.None? && w.disk.exe != r.binary
    requires w.disk.record.pending == "" || w.disk.record.starts < 3
    requires w.disk.record.rejected == "" || !EqualFold(w.disk.record.rejected, r.version)
    ensures var v := Step(w, r, Start(true, true, Fine));
      && v.disk.exe == r.binary && v.disk.previous == Some(w.disk.exe)
      && v.disk.record == Record(r.version, 0, w.disk.record.rejected) && v.installs == w.installs + 1 && v.up.None?
  {
  }

  /** The release is in place and nothing is pending. */
  ghost predicate Accepted(w: World, r: Release) {
    w.disk.exe == r.binary && w.disk.record.pending == ""
  }

  lemma AcceptedStays(w: World, r: Release, e: Event)
    requires Accepted(w, r)
    ensures Accepted(Step(w, r, e), r)
  {
  }

  /** A release on trial that publishes once, with the record written, stays for good: no later
      starts, deadlines or failing file operations roll it back. */
  lemma {:induction false} PublishedIsKept(w: World, r: Release, was: Binary, es: seq<Event>)
    requires OnTrial(w, r, was) && w.up.Some?
    ensures Accepted(Run(Step(w, r, Publish(true)), r, es), r)
    decreases |es|
  {
    if es != [] {
      PublishedIsKept(w, r, was, Front(es));
      AcceptedStays(Run(Step(w, r, Publish(true)), r, Front(es)), r, Last(es));
    }
  }

  /** A release on trial that runs into the health deadline unpublished is rolled back there
      and then. */
  lemma DeadlineRollsBack(w: World, r: Release, was: Binary)
    requires OnTrial(w, r, was) && w.up.Some? && w.up.value.watch && r.version != ""
    ensures var v := Step(w, r, Deadline(true, true)); Refused(v, r, was) && v.up.None? && v.disk.previous.None?
  {
  }

  /** A start of a release on trial watches the deadline and counts. */
  lemma TrialStartWatches(w: World, r: Release, was: Binary, offered: bool, trialOk: bool)
    requires OnTrial(w, r, was) && w.up.None? && w.starts < 3 && r.version != ""
    ensures var v := Step(w, r, Start(offered, trialOk, Fine));
      v.up == Some(Process(r.binary, true, false)) && v.disk.record.starts == w.disk.record.starts + 1
  {
  }
}
