/** Resuming, stopping and reaping the training process of one run directory, under that
    directory's lock (server/training_control/process_control.py:130-264, 326-337,
    357-402; process_inspection.py:73-95, 176-229). Each operation is split at its awaits;
    processes exit and are reaped in between. */
module ProcessControl {
  import opened Core

  type Pid = nat

  /** An exited process stays visible until its parent has waited for it. */
  datatype Status = Live | Zombie | Gone

  /** Who holds the lock, and at which await. */
  datatype Holder =
    | Free
    | Spawning                          // resume, creating the process
    | Spawned(pid: Pid)                 // resume, the process just created
    | Killing(pid: Pid)                 // resume, waiting for the process it killed
    | Stopping(pid: Pid, forced: bool)  // stop, waiting for the exit

  /** `file` is the PID the file can be read to name; `children` are the processes ever
      spawned for this run; `cleaned` are those whose reaper finished its clean-up. */
  datatype State = State(
    file: Option<Pid>,
    status: map<Pid, Status>,
    children: set<Pid>,
    holder: Holder,
    reapers: set<Pid>,
    cleaned: set<Pid>)

  function StatusOf(s: State, pid: Pid): Status { if pid in s.status then s.status[pid] else Gone }

  /** kill(pid, 0), and killpg for a process leading its own group. */
  predicate Exists(s: State, pid: Pid) { StatusOf(s, pid) != Gone }

  /** What inspect reports: reading details of a process that exits may or may not find it. */
  function Inspected(s: State, seesZombie: bool): Option<Pid> {
    if s.file.None? then None
    else
      match StatusOf(s, s.file.value)
      case Live => s.file
      case Zombie => if seesZombie then s.file else None
      case Gone => None
  }

  function RemovedIfMatches(file: Option<Pid>, pid: Pid, unlinks: bool): Option<Pid> {
    if file == Some(pid) && unlinks then None else file
  }

  datatype Signal = Delivered | NoProcess | Failed

  datatype Step =
    | Exit(pid: Pid)
    | Wait(pid: Pid)                                      // its parent reaps it
    | Refuse                                              // unreadable file, bad directory
    | Resume(seesZombie: bool)
    | SpawnFails
    | Spawn(pid: Pid)
    | Publish(writes: bool)
    | KillDone
    | Stop(seesZombie: bool, sigterm: Signal, unlinks: bool)
    | StopExited(unlinks: bool)
    | StopTimedOut(kills: bool)
    | StopFails
    | Reap(pid: Pid, unlinks: bool)

  predicate Enabled(s: State, step: Step) {
    match step
    case Exit(pid) => StatusOf(s, pid) == Live
    case Wait(pid) => StatusOf(s, pid) == Zombie
    case Refuse => s.holder.Free?
    case Resume(_) => s.holder.Free?
    case SpawnFails => s.holder.Spawning?
    case Spawn(pid) => s.holder.Spawning? && pid > 0 && pid !in s.status && s.file != Some(pid)
    case Publish(_) => s.holder.Spawned?
    case KillDone => s.holder.Killing? && StatusOf(s, s.holder.pid) == Gone
    case Stop(sees, sigterm, _) =>
      && s.holder.Free?
      && (sigterm == NoProcess && Inspected(s, sees).Some? ==> StatusOf(s, Inspected(s, sees).value) != Live)
    case StopExited(_) => s.holder.Stopping? && !Exists(s, s.holder.pid)
    case StopTimedOut(_) => s.holder.Stopping?
    case StopFails => s.holder.Stopping?
    case Reap(pid, _) => s.holder.Free? && pid in s.reapers && StatusOf(s, pid) == Gone
  }

  /** resume up to its first await inside the lock. */
  function OnResume(s: State, seesZombie: bool): State {
    if Inspected(s, seesZombie).Some? then s else s.(holder := Spawning)
  }

  function OnSpawn(s: State, pid: Pid): State {
    s.(status := s.status[pid := Live], children := s.children + {pid}, holder := Spawned(pid))
  }

  /** write_training_pid; a failed write leaves the old file and kills the new process. */
  function OnPublish(s: State, writes: bool): State
    requires s.holder.Spawned?
  {
    var pid := s.holder.pid;
    if writes then s.(file := Some(pid), reapers := s.reapers + {pid}, holder := Free)
    else s.(holder := Killing(pid))
  }

  function OnStop(s: State, seesZombie: bool, sigterm: Signal, unlinks: bool): State {
    var seen := Inspected(s, seesZombie);
    if seen.None? then s.(file := if unlinks then None else s.file)
    else
      match sigterm
      case Delivered => s.(holder := Stopping(seen.value, false))
      case NoProcess => s.(file := RemovedIfMatches(s.file, seen.value, unlinks))
      case Failed => s
  }

  function OnStopExited(s: State, unlinks: bool): State
    requires s.holder.Stopping?
  {
    s.(file := RemovedIfMatches(s.file, s.holder.pid, unlinks), holder := Free)
  }

  /** The first timeout turns to SIGKILL, the second gives up; so does a failing SIGKILL. */
  function OnStopTimedOut(s: State, kills: bool): State
    requires s.holder.Stopping?
  {
    s.(holder := if !s.holder.forced && kills then Stopping(s.holder.pid, true) else Free)
  }

  function OnReap(s: State, pid: Pid, unlinks: bool): State {
    s.(file := RemovedIfMatches(s.file, pid, unlinks),
       reapers := s.reapers - {pid},
       cleaned := if unlinks || s.file != Some(pid) then s.cleaned + {pid} else s.cleaned)
  }

  function Next(s: State, step: Step): State
    requires Enabled(s, step)
  {
    match step
    case Exit(pid) => s.(status := s.status[pid := Zombie])
    case Wait(pid) => s.(status := s.status[pid := Gone])
    case Refuse => s
    case Resume(sees) => OnResume(s, sees)
    case SpawnFails => s.(holder := Free)
    case Spawn(pid) => OnSpawn(s, pid)
    case Publish(writes) => OnPublish(s, writes)
    case KillDone => s.(holder := Free)
    case Stop(sees, sigterm, unlinks) => OnStop(s, sees, sigterm, unlinks)
    case StopExited(unlinks) => OnStopExited(s, unlinks)
    case StopTimedOut(kills) => OnStopTimedOut(s, kills)
    case StopFails => s.(holder := Free)
    case Reap(pid, unlinks) => OnReap(s, pid, unlinks)
  }

  ghost predicate Feasible(s: State, steps: seq<Step>)
    decreases |steps|
  {
    steps == [] || (Enabled(s, steps[0]) && Feasible(Next(s, steps[0]), steps[1..]))
  }

  function Run(s: State, steps: seq<Step>): State
    requires Feasible(s, steps)
    decreases |steps|
  {
    if steps == [] then s else Run(Next(s, steps[0]), steps[1..])
  }

  // ---------------------------------------------------------------------------------
  // The object whose fields change

  class TrainingProcessControl {
    var file: Option<Pid>
    var status: map<Pid, Status>
    var children: set<Pid>
    var holder: Holder
    var reapers: set<Pid>
    var cleaned: set<Pid>

    ghost function View(): State reads this { State(file, status, children, holder, reapers, cleaned) }

    /** ProcessInspector.inspect. */
    method Inspect(seesZombie: bool) returns (process: Option<Pid>)
      ensures process == Inspected(View(), seesZombie)
      ensures process.Some? <==>
        && file.Some? && file.value in status
        && (status[file.value] == Live || (status[file.value] == Zombie && seesZombie))
      ensures process.Some? ==> process == file
    {
      if file.None? { return None; }
      var pid := file.value;
      if pid !in status || status[pid] == Gone { return None; }
      if status[pid] == Zombie && !seesZombie { return None; }
      return Some(pid);
    }

    /** remove_training_pid_if_matches. */
    method RemoveIfMatches(pid: Pid, unlinks: bool)
      modifies `file
      ensures file == if unlinks && old(file) == Some(pid) then None else old(file)
    {
      if file != Some(pid) { return; }
      if unlinks { file := None; }
    }

    method Resume(seesZombie: bool) returns (accepted: bool)
      requires holder.Free?
      modifies `holder
      ensures View() == OnResume(old(View()), seesZombie)
      ensures accepted <==> holder.Spawning?
    {
      var process := Inspect(seesZombie);
      if process.Some? { return false; }
      holder := Spawning;
      return true;
    }

    method Publish(writes: bool)
      requires holder.Spawned?
      modifies this
      ensures View() == OnPublish(old(View()), writes)
    {
      var pid := holder.pid;
      if !writes {
        holder := Killing(pid);
        return;
      }
      file := Some(pid);
      reapers := reapers + {pid};
      holder := Free;
    }

    method Stop(seesZombie: bool, sigterm: Signal, unlinks: bool)
      requires holder.Free?
      modifies this
      ensures View() == OnStop(old(View()), seesZombie, sigterm, unlinks)
    {
      var process := Inspect(seesZombie);
      if process.None? {
        if unlinks { file := None; }
        return;
      }
      var pid := process.value;
      match sigterm
      case NoProcess => RemoveIfMatches(pid, unlinks);
      case Failed =>
      case Delivered => holder := Stopping(pid, false);
    }

    /** One turn of the wait for the process group to exit. */
    method StopPoll(expired: bool, kills: bool, unlinks: bool)
      requires holder.Stopping?
      modifies this
      ensures View() ==
        if !Exists(old(View()), old(holder).pid) then OnStopExited(old(View()), unlinks)
        else if expired then OnStopTimedOut(old(View()), kills)
        else old(View())
    {
      var pid, forced := holder.pid, holder.forced;
      if pid !in status || status[pid] == Gone {
        RemoveIfMatches(pid, unlinks);
        holder := Free;
      } else if expired {
        holder := if !forced && kills then Stopping(pid, true) else Free;
      }
    }

    /** _reap once the process has exited and the lock is held. */
    method Reap(pid: Pid, unlinks: bool)
      requires holder.Free? && pid in reapers
      modifies this
      ensures View() == OnReap(old(View()), pid, unlinks)
    {
      if unlinks || file != Some(pid) { cleaned := cleaned + {pid}; }
      RemoveIfMatches(pid, unlinks);
      reapers := reapers - {pid};
    }
  }

  // ---------------------------------------------------------------------------------
  // Safety

  predicate LiveChild(s: State, p: Pid) { p in s.children && StatusOf(s, p) == Live }

  /** The process being created or killed under the lock. */
  predicate Unpublished(h: Holder, p: Pid) {
    (h.Spawned? || h.Killing?) && h.pid == p
  }

  ghost predicate Inv(s: State) {
    && s.children <= s.status.Keys
    && (forall p: Pid :: LiveChild(s, p) ==>
         if s.holder.Free? || s.holder.Stopping? then s.file == Some(p) else Unpublished(s.holder, p))
    && (s.holder.Spawned? ==> s.holder.pid in s.children)
    && (s.holder.Stopping? ==> s.file == Some(s.holder.pid))
    && s.reapers <= s.children
    && (forall p :: p in s.cleaned ==>
         p in s.status && s.status[p] == Gone && s.file != Some(p) && !Unpublished(s.holder, p))
  }

  lemma StepKeeps(s: State, step: Step)
    requires Inv(s) && Enabled(s, step)
    ensures Inv(Next(s, step))
  {
    var s' := Next(s, step);
    forall p: Pid | LiveChild(s', p)
      ensures if s'.holder.Free? || s'.holder.Stopping? then s'.file == Some(p) else Unpublished(s'.holder, p)
    {
      if p in s.children { assert LiveChild(s, p); }
    }
  }

  /** A control over a run whose live process, if one is left from before, is the one the
      file names; the file and any other process are arbitrary. */
  ghost predicate Started(s: State) {
    && s.holder == Free && s.reapers == {} && s.cleaned == {}
    && s.children <= s.status.Keys
    && forall p: Pid :: LiveChild(s, p) ==> s.file == Some(p)
  }

  lemma {:induction false} RunKeeps(s: State, steps: seq<Step>)
    requires Inv(s) && Feasible(s, steps)
    ensures Inv(Run(s, steps))
    decreases |steps|
  {
    if steps != [] {
      StepKeeps(s, steps[0]);
      RunKeeps(Next(s, steps[0]), steps[1..]);
    }
  }

  /** In every run, whenever the lock is free a live process of the run is the one the PID
      file names; and at no moment are two alive. */
  lemma OneLiveProcess(s: State, steps: seq<Step>, p: Pid, q: Pid)
    requires Started(s) && Feasible(s, steps)
    ensures var t := Run(s, steps);
      && (LiveChild(t, p) && t.holder.Free? ==> t.file == Some(p))
      && (LiveChild(t, p) && LiveChild(t, q) ==> p == q)
  {
    assert Inv(s);
    RunKeeps(s, steps);
  }

  /** A process whose reaper has finished is gone, and the file never names it again. */
  lemma CleanedStaysClean(s: State, steps: seq<Step>, p: Pid)
    requires Started(s) && Feasible(s, steps) && p in Run(s, steps).cleaned
    ensures StatusOf(Run(s, steps), p) == Gone && Run(s, steps).file != Some(p)
  {
    assert Inv(s);
    RunKeeps(s, steps);
  }

  /** A reaper touches the file only to remove its own process's PID, so a newer one stays. */
  lemma ReaperSparesTheNewer(s: State, steps: seq<Step>, older: Pid, newer: Pid, unlinks: bool)
    requires Started(s) && Feasible(s, steps)
    requires Enabled(Run(s, steps), Reap(older, unlinks)) && LiveChild(Run(s, steps), newer)
    ensures older != newer
    ensures Next(Run(s, steps), Reap(older, unlinks)).file == Run(s, steps).file == Some(newer)
  {
    assert Inv(s);
    RunKeeps(s, steps);
  }

  /** While a process of the run is alive and the lock free, resume is refused and leaves
      everything as it was, whatever the inspection races with. */
  lemma LiveProcessBlocksResume(s: State, steps: seq<Step>, p: Pid, seesZombie: bool)
    requires Started(s) && Feasible(s, steps)
    requires LiveChild(Run(s, steps), p) && Run(s, steps).holder.Free?
    ensures Next(Run(s, steps), Resume(seesZombie)) == Run(s, steps)
  {
    assert Inv(s);
    RunKeeps(s, steps);
  }

  /** Conversely, a resume that is not refused starts from no live process at all. */
  lemma ResumeStartsAlone(s: State, steps: seq<Step>, p: Pid, seesZombie: bool)
    requires Started(s) && Feasible(s, steps) && Run(s, steps).holder.Free?
    requires Next(Run(s, steps), Resume(seesZombie)).holder.Spawning?
    ensures !LiveChild(Run(s, steps), p)
  {
    assert Inv(s);
    RunKeeps(s, steps);
  }

  /** The file names a process that the inspection finds. */
  predicate Named(s: State, sees: bool) {
    && s.file.Some? && s.file.value in s.status
    && (s.status[s.file.value] == Live || (s.status[s.file.value] == Zombie && sees))
  }

  /** Resume starts a process if and only if the file names none, or one that is gone, or
      an exited one the inspection misses; otherwise it changes nothing. */
  lemma ResumeStartsIff(s: State, sees: bool)
    requires Enabled(s, Resume(sees))
    ensures var t := Next(s, Resume(sees));
      && (t.holder.Spawning? <==>
            || s.file.None?
            || s.file.value !in s.status || s.status[s.file.value] == Gone
            || (s.status[s.file.value] == Zombie && !sees))
      && t == if Named(s, sees) then s else s.(holder := Spawning)
  {
  }

  /** The file names no process, or one that is gone. */
  predicate Vacant(s: State) {
    s.file.None? || s.file.value !in s.status || s.status[s.file.value] == Gone
  }

  /** Only publishing another process makes a vacant file name one that exists. */
  lemma {:induction false} VacantUntilPublished(s: State, steps: seq<Step>)
    requires Vacant(s) && Feasible(s, steps)
    requires forall i :: 0 <= i < |steps| ==> steps[i] != Publish(true)
    ensures Vacant(Run(s, steps))
    decreases |steps|
  {
    if steps != [] {
      assert steps[0] != Publish(true);
      VacantUntilPublished(Next(s, steps[0]), steps[1..]);
    }
  }

  /** Once stop has seen the exit, even if removing the file failed, every resume is
      accepted until another process is published; and so it is once the process the file
      names has been reaped. */
  lemma AcceptedUntilPublished(s: State, before: seq<Step>, step: Step, after: seq<Step>, sees: bool)
    requires Started(s) && Feasible(s, before) && Enabled(Run(s, before), step)
    requires
      || step.StopExited?
      || (step.Reap? && (Run(s, before).file.None? || Run(s, before).file == Some(step.pid)))
    requires Feasible(Next(Run(s, before), step), after)
    requires forall i :: 0 <= i < |after| ==> after[i] != Publish(true)
    requires Enabled(Run(Next(Run(s, before), step), after), Resume(sees))
    ensures Next(Run(Next(Run(s, before), step), after), Resume(sees)).holder.Spawning?
  {
    assert Inv(s);
    RunKeeps(s, before);
    VacantUntilPublished(Next(Run(s, before), step), after);
    hide Feasible, Run;
  }

  /** Stop waits for a process if and only if the inspection finds the one the file names
      and SIGTERM reaches it; a file that names none, or one the signal misses, is removed;
      a failing signal changes nothing. */
  lemma StopWaitsIff(s: State, sees: bool, sigterm: Signal, unlinks: bool)
    requires Enabled(s, Stop(sees, sigterm, unlinks))
    ensures var t := Next(s, Stop(sees, sigterm, unlinks));
      && (t.holder.Stopping? <==> Named(s, sees) && sigterm.Delivered?)
      && (t.holder.Stopping? ==> Some(t.holder.pid) == s.file && !t.holder.forced)
      && (!t.holder.Stopping? ==> t.holder.Free?)
      && t.file == (if unlinks && (!Named(s, sees) || sigterm.NoProcess?) then None else s.file)
      && t == s.(file := t.file, holder := t.holder)
  {
  }

  /** The first wait that times out turns to SIGKILL and waits again; a second timeout or a
      failing SIGKILL gives up, with the file as it was; an exit ends the wait at once. */
  lemma StopEscalatesOnce(s: State, kills: bool, unlinks: bool)
    requires s.holder.Stopping?
    ensures Enabled(s, StopTimedOut(kills))
    ensures Next(s, StopTimedOut(kills))
      == s.(holder := if kills && !s.holder.forced then Stopping(s.holder.pid, true) else Free)
    ensures Enabled(s, StopExited(unlinks)) <==>
      s.holder.pid !in s.status || s.status[s.holder.pid] == Gone
    ensures Enabled(s, StopExited(unlinks)) ==>
      var t := Next(s, StopExited(unlinks));
      && t == s.(holder := Free, file := t.file)
      && t.file == if unlinks && s.file == Some(s.holder.pid) then None else s.file
  {
  }

  /** Creating a process makes it a live child of the run under the lock; publishing makes
      the file name it and starts its reaper; a failed write leaves the file and turns to
      killing it. A reaper that has cleaned up is done, and the file does not name its process. */
  lemma SpawnedIsPublished(s: State, pid: Pid, writes: bool)
    requires Enabled(s, Spawn(pid))
    ensures var t := Next(s, Spawn(pid));
      && LiveChild(t, pid) && t.holder == Spawned(pid) && t.file == s.file
      && (forall q :: q in t.children <==> q in s.children || q == pid)
      && var u := Next(t, Publish(writes));
      && u.file == (if writes then Some(pid) else s.file)
      && u.reapers == (if writes then s.reapers + {pid} else s.reapers)
      && u.holder == (if writes then Free else Killing(pid))
  {
  }

  lemma ReapedIsCleaned(s: State, pid: Pid, unlinks: bool)
    requires Enabled(s, Reap(pid, unlinks))
    ensures var t := Next(s, Reap(pid, unlinks));
      && pid !in t.reapers && t.reapers + {pid} == s.reapers
      && t.file == (if unlinks && s.file == Some(pid) then None else s.file)
      && t.cleaned == (if t.file != Some(pid) then s.cleaned + {pid} else s.cleaned)
  {
  }

  /** A process that was spawned is published under its own PID with a reaper, or killed
      under the lock; none that still exists is forgotten. */
  ghost predicate Attended(s: State, p: Pid) {
    p in s.reapers || Unpublished(s.holder, p) || StatusOf(s, p) == Gone
  }

  lemma EveryChildIsAttended(s: State, steps: seq<Step>, p: Pid)
    requires Started(s) && Feasible(s, steps) && p in Run(s, steps).children
    ensures p in s.children || Attended(Run(s, steps), p)
  {
    AttendedSteps(s, steps, s.children, p);
  }

  lemma {:induction false} AttendedSteps(s: State, steps: seq<Step>, before: set<Pid>, p: Pid)
    requires Feasible(s, steps) && p in Run(s, steps).children
    requires p in s.children ==> p in before || Attended(s, p)
    ensures p in before || Attended(Run(s, steps), p)
    decreases |steps|
  {
    if steps != [] { AttendedSteps(Next(s, steps[0]), steps[1..], before, p); }
  }

  /** When the process stop waited for is gone, no process of the run is alive, and unless
      removing failed the file names none. */
  lemma StoppedMeansDead(s: State, steps: seq<Step>, unlinks: bool, p: Pid)
    requires Started(s) && Feasible(s, steps) && Enabled(Run(s, steps), StopExited(unlinks))
    ensures var t := Run(s, steps);
      && !LiveChild(t, p)
      && (unlinks ==> Next(t, StopExited(unlinks)).file == None)
  {
    assert Inv(s);
    RunKeeps(s, steps);
  }
}
