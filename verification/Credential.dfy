/**
  Publication of the server credential (claude-monitor-codex/src/auth.rs).

  Any number of processes run `load_or_create` against one directory. Each system call is one
  step; a process can die between any two of them, and power can fail at any moment. The
  directory has a current view and a view on disk, which only a directory sync makes equal; a
  file's bytes survive power loss only once the file was synced.
*/
module Credential {
  import opened Wrappers

  const TOKEN_BYTES: nat := 64

  datatype FileName = TokenName | Temporary(nonce: nat)

  /** `synced`: the bytes are on disk. Power loss leaves any bytes in an unsynced file. */
  datatype File = File(bytes: seq<nat>, synced: bool)

  datatype Draft = Draft(nonce: nat, inode: nat, value: seq<nat>)

  datatype Process =
    | Begun
    | Opened(inode: nat)
    | Loaded(value: seq<nat>)
    | Absent
    | Writing(draft: Draft)
    | FileSynced(draft: Draft)
    | Published(draft: Draft)
    | Cleaning(draft: Draft, publish: bool)
    | ReadingBack
    | OpenedBack(inode: nat)
    | Returned(value: seq<nat>)
    | Failed

  datatype State = State(
    files: map<nat, File>,
    dir: map<FileName, nat>,
    disk: map<FileName, nat>,
    processes: map<nat, Process>,
    nonces: set<nat>,
    returned: seq<seq<nat>>)

  const EMPTY := State(map[], map[], map[], map[], {}, [])

  /** `Unsupported` is EINVAL or ENOTSUP, which the code takes for success. */
  datatype SyncOutcome = Honoured | Unsupported | Refused

  datatype Step =
    | Begin(pid: nat)
    | Open(pid: nat)
    | Read(pid: nat)
    | SyncLoaded(pid: nat, outcome: SyncOutcome)
    | Create(pid: nat, draft: Draft)
    | Write(pid: nat, count: nat)
    | SyncFile(pid: nat)
    | Publish(pid: nat)
    | SyncPublished(pid: nat, outcome: SyncOutcome)
    | Remove(pid: nat)
    | Trouble(pid: nat)
    | Kill(pid: nat)
    | PowerLoss(dir: map<FileName, nat>, files: map<nat, File>)

  predicate At(s: State, pid: nat, p: Process) {
    pid in s.processes && s.processes[pid] == p
  }

  function Move(s: State, pid: nat, p: Process): State {
    s.(processes := s.processes[pid := p])
  }

  function Return(s: State, pid: nat, value: seq<nat>): State {
    Move(s, pid, Returned(value)).(returned := s.returned + [value])
  }

  function SyncDirectory(s: State, outcome: SyncOutcome): State {
    if outcome.Honoured? then s.(disk := s.dir) else s
  }

  /** What a directory can hold after power loss: every name is as on disk or as it last was. */
  predicate Survives(before: State, dir: map<FileName, nat>, files: map<nat, File>) {
    && (forall name :: name in dir ==>
          || (name in before.dir && before.dir[name] == dir[name])
          || (name in before.disk && before.disk[name] == dir[name]))
    && (forall name :: name in before.disk && name in before.dir && before.disk[name] == before.dir[name]
                       ==> name in dir)
    && files.Keys == before.files.Keys
    && (forall i :: i in files ==> files[i].synced)
    && (forall i :: i in before.files && before.files[i].synced ==> files[i] == before.files[i])
  }

  predicate Enabled(s: State, step: Step) {
    match step
    case Begin(pid) => pid !in s.processes
    case Open(pid) => At(s, pid, Begun) || At(s, pid, ReadingBack)
    case Read(pid) => pid in s.processes && (s.processes[pid].Opened? || s.processes[pid].OpenedBack?)
                      && s.processes[pid].inode in s.files
    case SyncLoaded(pid, _) => pid in s.processes && s.processes[pid].Loaded?
    case Create(pid, draft) => At(s, pid, Absent) && draft.nonce !in s.nonces && draft.inode !in s.files
                               && Temporary(draft.nonce) !in s.dir && |draft.value| == TOKEN_BYTES
    case Write(pid, count) => pid in s.processes && s.processes[pid].Writing?
                              && s.processes[pid].draft.inode in s.files
                              && |s.files[s.processes[pid].draft.inode].bytes| + count <= TOKEN_BYTES
                              && |s.processes[pid].draft.value| == TOKEN_BYTES
    case SyncFile(pid) => pid in s.processes && s.processes[pid].Writing?
                          && s.processes[pid].draft.inode in s.files
                          && s.files[s.processes[pid].draft.inode].bytes == s.processes[pid].draft.value
    case Publish(pid) => pid in s.processes && s.processes[pid].FileSynced?
    case SyncPublished(pid, _) => pid in s.processes && s.processes[pid].Published?
    case Remove(pid) => pid in s.processes && s.processes[pid].Cleaning?
    case Trouble(pid) => pid in s.processes && !s.processes[pid].Returned?
    case Kill(pid) => pid in s.processes
    case PowerLoss(dir, files) => Survives(s, dir, files)
  }

  /** A system call failed: after the temporary file exists, failure still goes through cleanup. */
  function Abort(p: Process): Process {
    match p
    case Writing(draft) => Cleaning(draft, false)
    case FileSynced(draft) => Cleaning(draft, false)
    case Published(draft) => Cleaning(draft, false)
    case _ => Failed
  }

  function Apply(s: State, step: Step): State
    requires Enabled(s, step)
  {
    match step
    case Begin(pid) => Move(s, pid, Begun)
    case Open(pid) =>
      var first := s.processes[pid] == Begun;
      if TokenName in s.dir then
        Move(s, pid, if first then Opened(s.dir[TokenName]) else OpenedBack(s.dir[TokenName]))
      else Move(s, pid, if first then Absent else Failed)
    case Read(pid) =>
      var bytes := s.files[s.processes[pid].inode].bytes;
      if |bytes| != TOKEN_BYTES then Move(s, pid, Failed)
      else if s.processes[pid].Opened? then Move(s, pid, Loaded(bytes))
      else Return(s, pid, bytes)
    case SyncLoaded(pid, outcome) =>
      if outcome.Refused? then Move(s, pid, Failed)
      else Return(SyncDirectory(s, outcome), pid, s.processes[pid].value)
    case Create(pid, draft) =>
      Move(s, pid, Writing(draft))
      .(files := s.files[draft.inode := File([], false)],
        dir := s.dir[Temporary(draft.nonce) := draft.inode],
        nonces := s.nonces + {draft.nonce})
    case Write(pid, count) =>
      var draft := s.processes[pid].draft;
      var written := |s.files[draft.inode].bytes|;
      s.(files := s.files[draft.inode := File(draft.value[..written + count], false)])
    case SyncFile(pid) =>
      var draft := s.processes[pid].draft;
      Move(s, pid, FileSynced(draft)).(files := s.files[draft.inode := File(draft.value, true)])
    case Publish(pid) =>
      var draft := s.processes[pid].draft;
      var published := Move(s, pid, Published(draft));
      if TokenName in s.dir then published else published.(dir := s.dir[TokenName := draft.inode])
    case SyncPublished(pid, outcome) =>
      var draft := s.processes[pid].draft;
      Move(SyncDirectory(s, outcome), pid, Cleaning(draft, !outcome.Refused?))
    case Remove(pid) =>
      var p := s.processes[pid];
      Move(s, pid, if p.publish then ReadingBack else Failed)
      .(dir := s.dir - {Temporary(p.draft.nonce)})
    case Trouble(pid) => Move(s, pid, Abort(s.processes[pid]))
    case Kill(pid) => s.(processes := s.processes - {pid})
    case PowerLoss(dir, files) => s.(dir := dir, disk := dir, files := files, processes := map[])
  }

  // ---------------------------------------------------------------------------------------
  // Runs.

  ghost predicate IsRun(s: State, steps: seq<Step>)
    decreases |steps|
  {
    steps == [] || (Enabled(s, steps[0]) && IsRun(Apply(s, steps[0]), steps[1..]))
  }

  ghost function Run(s: State, steps: seq<Step>): State
    requires IsRun(s, steps)
    decreases |steps|
  {
    if steps == [] then s else Run(Apply(s, steps[0]), steps[1..])
  }

  predicate SyncUnsupported(step: Step) {
    (step.SyncLoaded? || step.SyncPublished?) && step.outcome.Unsupported?
  }

  /** The condition of the guarantee: directory syncs are honoured, or the power never fails. */
  predicate Dependable(steps: seq<Step>, honoured: bool) {
    if honoured then forall k :: 0 <= k < |steps| ==> !SyncUnsupported(steps[k])
    else forall k :: 0 <= k < |steps| ==> !steps[k].PowerLoss?
  }

  predicate Agree(values: seq<seq<nat>>) {
    forall i, j :: 0 <= i < |values| && 0 <= j < |values| ==> values[i] == values[j]
  }

  // ---------------------------------------------------------------------------------------
  // The invariant.

  /** The directory whose token no later step can change: the one on disk, if syncs are honoured. */
  function Anchor(s: State, honoured: bool): map<FileName, nat> {
    if honoured then s.disk else s.dir
  }

  predicate HoldsDraft(p: Process) {
    p.Writing? || p.FileSynced? || p.Published? || p.Cleaning?
  }

  /** The published name always holds a whole, durable value. */
  ghost predicate TokenWhole(s: State) {
    && (TokenName in s.dir ==>
          && s.dir[TokenName] in s.files
          && s.files[s.dir[TokenName]].synced
          && |s.files[s.dir[TokenName]].bytes| == TOKEN_BYTES)
    && (TokenName in s.disk ==> TokenName in s.dir && s.dir[TokenName] == s.disk[TokenName])
  }

  ghost predicate Sound(s: State, p: Process, honoured: bool) {
    match p
    case Opened(inode) => TokenName in s.dir && s.dir[TokenName] == inode
    case Loaded(value) => TokenName in s.dir && s.dir[TokenName] in s.files
                          && s.files[s.dir[TokenName]].bytes == value
    case Writing(draft) => draft.inode in s.files && |draft.value| == TOKEN_BYTES
                           && (TokenName in s.dir ==> s.dir[TokenName] != draft.inode)
    case FileSynced(draft) => draft.inode in s.files && s.files[draft.inode] == File(draft.value, true)
                              && |draft.value| == TOKEN_BYTES
    case Published(_) => TokenName in s.dir
    case Cleaning(_, publish) => publish ==> TokenName in Anchor(s, honoured)
    case ReadingBack => TokenName in Anchor(s, honoured)
    case OpenedBack(inode) => TokenName in Anchor(s, honoured) && s.dir.Keys >= {TokenName} && s.dir[TokenName] == inode
    case _ => true
  }

  ghost predicate DraftsApart(s: State) {
    forall p, q :: p in s.processes && q in s.processes && p != q
                   && HoldsDraft(s.processes[p]) && HoldsDraft(s.processes[q])
                   ==> s.processes[p].draft.inode != s.processes[q].draft.inode
  }

  ghost predicate DraftsExist(s: State) {
    forall p :: p in s.processes && HoldsDraft(s.processes[p]) ==> s.processes[p].draft.inode in s.files
  }

  /** Every value ever returned is the one the anchored name holds. */
  ghost predicate Anchored(s: State, honoured: bool) {
    s.returned != [] ==>
      var anchor := Anchor(s, honoured);
      && TokenName in anchor && anchor[TokenName] in s.files
      && forall k :: 0 <= k < |s.returned| ==> s.returned[k] == s.files[anchor[TokenName]].bytes
  }

  ghost predicate Inv(s: State, honoured: bool) {
    && TokenWhole(s)
    && Anchored(s, honoured)
    && DraftsApart(s)
    && DraftsExist(s)
    && (forall p :: p in s.processes ==> Sound(s, s.processes[p], honoured))
  }

  lemma {:induction false} StepKeepsToken(s: State, step: Step, honoured: bool)
    requires Inv(s, honoured) && Enabled(s, step)
    requires Dependable([step], honoured)
    ensures TokenWhole(Apply(s, step))
  {
  }

  /** Steps that return no value keep what the returned ones are anchored to. */
  lemma {:induction false} QuietStepKeepsAnchor(s: State, step: Step, honoured: bool)
    requires TokenWhole(s) && Anchored(s, honoured) && Enabled(s, step)
    requires (forall p :: p in s.processes ==> Sound(s, s.processes[p], honoured))
    requires Apply(s, step).returned == s.returned
    requires !honoured ==> !step.PowerLoss?
    ensures Anchored(Apply(s, step), honoured)
  {
    if step.Write? || step.SyncFile? {
      assert Sound(s, s.processes[step.pid], honoured);
    }
  }

  lemma {:induction false} ReturnKeepsAnchor(s: State, step: Step, honoured: bool)
    requires TokenWhole(s) && Anchored(s, honoured) && Enabled(s, step)
    requires (forall p :: p in s.processes ==> Sound(s, s.processes[p], honoured))
    requires step.Read? || step.SyncLoaded?
    requires !(honoured && SyncUnsupported(step))
    ensures Anchored(Apply(s, step), honoured)
  {
    assert Sound(s, s.processes[step.pid], honoured);
  }

  lemma {:induction false} StepKeepsAnchor(s: State, step: Step, honoured: bool)
    requires Inv(s, honoured) && Enabled(s, step)
    requires Dependable([step], honoured)
    ensures Anchored(Apply(s, step), honoured)
  {
    assert [step][0] == step;
    if step.Read? || step.SyncLoaded? {
      ReturnKeepsAnchor(s, step, honoured);
    } else {
      QuietStepKeepsAnchor(s, step, honoured);
    }
  }

  lemma {:induction false} DraftOrigin(s: State, step: Step, p: nat)
    requires Enabled(s, step) && p in Apply(s, step).processes && HoldsDraft(Apply(s, step).processes[p])
    ensures || (step.Create? && p == step.pid && Apply(s, step).processes[p].draft == step.draft)
            || (p in s.processes && HoldsDraft(s.processes[p])
                && s.processes[p].draft == Apply(s, step).processes[p].draft)
  {
  }

  lemma {:induction false} StepKeepsApart(s: State, step: Step)
    requires DraftsApart(s) && DraftsExist(s) && Enabled(s, step)
    ensures DraftsApart(Apply(s, step))
  {
    hide Apply;
    var after := Apply(s, step).processes;
    forall p, q | p in after && q in after && p != q && HoldsDraft(after[p]) && HoldsDraft(after[q])
      ensures after[p].draft.inode != after[q].draft.inode
    {
      DraftOrigin(s, step, p);
      DraftOrigin(s, step, q);
    }
  }

  lemma {:induction false} StepKeepsDrafts(s: State, step: Step)
    requires DraftsExist(s) && Enabled(s, step)
    ensures DraftsExist(Apply(s, step))
  {
    hide Apply;
    FilesGrow(s, step);
    forall p | p in Apply(s, step).processes && HoldsDraft(Apply(s, step).processes[p])
      ensures Apply(s, step).processes[p].draft.inode in Apply(s, step).files
    {
      DraftOrigin(s, step, p);
    }
  }

  lemma {:induction false} FilesGrow(s: State, step: Step)
    requires Enabled(s, step)
    ensures s.files.Keys <= Apply(s, step).files.Keys
    ensures step.Create? ==> step.draft.inode in Apply(s, step).files
  {
  }

  /** Steps that write no file and change neither directory: only the actor's own place moves. */
  predicate Local(step: Step) {
    step.Begin? || step.Open? || step.Read? || step.Trouble? || step.Kill?
  }

  lemma {:induction false} LocalKeepsSound(s: State, step: Step, honoured: bool, p: nat)
    requires Inv(s, honoured) && Enabled(s, step) && Local(step)
    requires p in Apply(s, step).processes
    ensures Sound(Apply(s, step), Apply(s, step).processes[p], honoured)
  {
    var t := Apply(s, step);
    assert t.dir == s.dir && t.disk == s.disk && t.files == s.files;
    if p != step.pid {
      assert Sound(s, s.processes[p], honoured);
    } else if p in s.processes {
      assert Sound(s, s.processes[p], honoured);
    }
  }

  lemma {:induction false} FileStepKeepsSound(s: State, step: Step, honoured: bool, p: nat)
    requires Inv(s, honoured) && Enabled(s, step)
    requires step.Create? || step.Write? || step.SyncFile?
    requires p in Apply(s, step).processes
    ensures Sound(Apply(s, step), Apply(s, step).processes[p], honoured)
  {
    assert Sound(s, s.processes[p], honoured);
    if !step.Create? {
      assert Sound(s, s.processes[step.pid], honoured);
    }
  }

  lemma {:induction false} NameStepKeepsSound(s: State, step: Step, honoured: bool, p: nat)
    requires Inv(s, honoured) && Enabled(s, step)
    requires step.Publish? || step.Remove?
    requires p in Apply(s, step).processes
    ensures Sound(Apply(s, step), Apply(s, step).processes[p], honoured)
  {
    assert Sound(s, s.processes[p], honoured);
    assert Sound(s, s.processes[step.pid], honoured);
  }

  lemma {:induction false} SyncStepKeepsSound(s: State, step: Step, honoured: bool, p: nat)
    requires Inv(s, honoured) && Enabled(s, step) && !(honoured && SyncUnsupported(step))
    requires step.SyncLoaded? || step.SyncPublished?
    requires p in Apply(s, step).processes
    ensures Sound(Apply(s, step), Apply(s, step).processes[p], honoured)
  {
    assert Sound(s, s.processes[p], honoured);
    assert Sound(s, s.processes[step.pid], honoured);
  }

  lemma {:induction false} StepKeepsInv(s: State, step: Step, honoured: bool)
    requires Inv(s, honoured) && Enabled(s, step)
    requires Dependable([step], honoured)
    ensures Inv(Apply(s, step), honoured)
  {
    StepKeepsToken(s, step, honoured);
    StepKeepsAnchor(s, step, honoured);
    StepKeepsApart(s, step);
    StepKeepsDrafts(s, step);
    assert [step][0] == step;
    forall p | p in Apply(s, step).processes
      ensures Sound(Apply(s, step), Apply(s, step).processes[p], honoured)
    {
      if Local(step) {
        LocalKeepsSound(s, step, honoured, p);
      } else if step.Create? || step.Write? || step.SyncFile? {
        FileStepKeepsSound(s, step, honoured, p);
      } else if step.Publish? || step.Remove? {
        NameStepKeepsSound(s, step, honoured, p);
      } else {
        SyncStepKeepsSound(s, step, honoured, p);
      }
    }
  }

  lemma {:induction false} RunKeepsInv(s: State, steps: seq<Step>, honoured: bool)
    requires Inv(s, honoured) && IsRun(s, steps) && Dependable(steps, honoured)
    ensures Inv(Run(s, steps), honoured)
    decreases |steps|
  {
    if steps != [] {
      assert [steps[0]][0] == steps[0];
      StepKeepsInv(s, steps[0], honoured);
      RunKeepsInv(Apply(s, steps[0]), steps[1..], honoured);
    }
  }

  /**
    Agreement and durability: whatever the interleaving, the crashes and (when directory syncs
    are honoured) the power losses, all values ever returned are equal, and the published name
    never holds a partial value. Without honoured syncs the same holds as long as power lasts.
  */
  lemma {:induction false} CredentialAgreement(steps: seq<Step>, honoured: bool)
    requires IsRun(EMPTY, steps) && Dependable(steps, honoured)
    ensures Agree(Run(EMPTY, steps).returned)
    ensures TokenWhole(Run(EMPTY, steps))
    ensures honoured && Run(EMPTY, steps).returned != [] ==>
              var s := Run(EMPTY, steps);
              TokenName in s.disk && s.disk[TokenName] in s.files
              && s.files[s.disk[TokenName]] == File(s.returned[0], true)
  {
    RunKeepsInv(EMPTY, steps, honoured);
  }

  // ---------------------------------------------------------------------------------------
  // The condition is needed: unsupported syncs together with power loss break the agreement.

  lemma {:induction false} RunCons(s: State, step: Step, rest: seq<Step>)
    requires Enabled(s, step) && IsRun(Apply(s, step), rest)
    ensures IsRun(s, [step] + rest) && Run(s, [step] + rest) == Run(Apply(s, step), rest)
  {
    assert ([step] + rest)[1..] == rest;
  }

  /** A directory in which one process holds a written and synced temporary file. */
  function Prepared(s: State, pid: nat, draft: Draft): State {
    s.(files := s.files[draft.inode := File(draft.value, true)],
       dir := map[Temporary(draft.nonce) := draft.inode],
       processes := map[pid := FileSynced(draft)],
       nonces := s.nonces + {draft.nonce})
  }

  lemma {:induction false} SoloPrepare(s: State, pid: nat, draft: Draft, rest: seq<Step>) returns (steps: seq<Step>)
    requires s.dir == map[] && s.processes == map[]
    requires draft.nonce !in s.nonces && draft.inode !in s.files && |draft.value| == TOKEN_BYTES
    requires IsRun(Prepared(s, pid, draft), rest)
    ensures IsRun(s, steps) && Run(s, steps) == Run(Prepared(s, pid, draft), rest)
  {
    hide IsRun, Run;
    var s1 := Apply(s, Begin(pid));
    var s2 := Apply(s1, Open(pid));
    var s3 := Apply(s2, Create(pid, draft));
    var s4 := Apply(s3, Write(pid, TOKEN_BYTES));
    assert draft.value[..TOKEN_BYTES] == draft.value;
    var s5 := Apply(s4, SyncFile(pid));
    assert s5 == Prepared(s, pid, draft);
    var t5 := [SyncFile(pid)] + rest;
    var t4 := [Write(pid, TOKEN_BYTES)] + t5;
    var t3 := [Create(pid, draft)] + t4;
    var t2 := [Open(pid)] + t3;
    steps := [Begin(pid)] + t2;
    RunCons(s4, SyncFile(pid), rest);
    RunCons(s3, Write(pid, TOKEN_BYTES), t5);
    RunCons(s2, Create(pid, draft), t4);
    RunCons(s1, Open(pid), t3);
    RunCons(s, Begin(pid), t2);
  }

  /** The same directory once that process has published and returned, with nothing synced. */
  function Delivered(s: State, pid: nat, draft: Draft): State {
    Prepared(s, pid, draft).(dir := map[TokenName := draft.inode],
                             processes := map[pid := Returned(draft.value)],
                             returned := s.returned + [draft.value])
  }

  lemma {:induction false} SoloReadBack(s: State, pid: nat, draft: Draft, rest: seq<Step>) returns (steps: seq<Step>)
    requires |draft.value| == TOKEN_BYTES
    requires IsRun(Delivered(s, pid, draft), rest)
    ensures var before := Delivered(s, pid, draft).(processes := map[pid := ReadingBack], returned := s.returned);
            IsRun(before, steps) && Run(before, steps) == Run(Delivered(s, pid, draft), rest)
  {
    hide IsRun, Run;
    var s8 := Delivered(s, pid, draft).(processes := map[pid := ReadingBack], returned := s.returned);
    var s9 := Apply(s8, Open(pid));
    assert Apply(s9, Read(pid)) == Delivered(s, pid, draft);
    var t9 := [Read(pid)] + rest;
    steps := [Open(pid)] + t9;
    RunCons(s9, Read(pid), rest);
    RunCons(s8, Open(pid), t9);
  }

  /** That process between publishing and reading back. */
  function Publishing(s: State, pid: nat, draft: Draft, p: Process, temporary: bool): State {
    var names := map[TokenName := draft.inode];
    Prepared(s, pid, draft).(dir := if temporary then names[Temporary(draft.nonce) := draft.inode] else names,
                             processes := map[pid := p])
  }

  lemma {:induction false} SoloLink(s: State, pid: nat, draft: Draft)
    ensures Enabled(Prepared(s, pid, draft), Publish(pid))
    ensures Apply(Prepared(s, pid, draft), Publish(pid)) == Publishing(s, pid, draft, Published(draft), true)
  {
  }

  lemma {:induction false} SoloUnsupported(s: State, pid: nat, draft: Draft)
    ensures var before := Publishing(s, pid, draft, Published(draft), true);
            Enabled(before, SyncPublished(pid, Unsupported))
            && Apply(before, SyncPublished(pid, Unsupported)) == Publishing(s, pid, draft, Cleaning(draft, true), true)
  {
  }

  lemma {:induction false} SoloRemove(s: State, pid: nat, draft: Draft)
    ensures var before := Publishing(s, pid, draft, Cleaning(draft, true), true);
            Enabled(before, Remove(pid)) && Apply(before, Remove(pid)) == Publishing(s, pid, draft, ReadingBack, false)
  {
    var names := map[TokenName := draft.inode];
    assert names[Temporary(draft.nonce) := draft.inode] - {Temporary(draft.nonce)} == names;
  }

  lemma {:induction false} SoloPublish(s: State, pid: nat, draft: Draft, rest: seq<Step>) returns (steps: seq<Step>)
    requires |draft.value| == TOKEN_BYTES
    requires IsRun(Delivered(s, pid, draft), rest)
    ensures IsRun(Prepared(s, pid, draft), steps)
    ensures Run(Prepared(s, pid, draft), steps) == Run(Delivered(s, pid, draft), rest)
  {
    hide IsRun, Run, Apply, Enabled;
    SoloLink(s, pid, draft);
    SoloUnsupported(s, pid, draft);
    SoloRemove(s, pid, draft);
    assert Publishing(s, pid, draft, ReadingBack, false)
           == Delivered(s, pid, draft).(processes := map[pid := ReadingBack], returned := s.returned);
    var t8 := SoloReadBack(s, pid, draft, rest);
    var t7 := [Remove(pid)] + t8;
    var t6 := [SyncPublished(pid, Unsupported)] + t7;
    steps := [Publish(pid)] + t6;
    RunCons(Publishing(s, pid, draft, Cleaning(draft, true), true), Remove(pid), t8);
    RunCons(Publishing(s, pid, draft, Published(draft), true), SyncPublished(pid, Unsupported), t7);
    RunCons(Prepared(s, pid, draft), Publish(pid), t6);
  }

  /** One process alone publishes its own value, and every directory sync is unsupported. */
  lemma {:induction false} SoloRun(s: State, pid: nat, draft: Draft, rest: seq<Step>) returns (steps: seq<Step>)
    requires s.dir == map[] && s.processes == map[]
    requires draft.nonce !in s.nonces && draft.inode !in s.files && |draft.value| == TOKEN_BYTES
    requires IsRun(Delivered(s, pid, draft), rest)
    ensures IsRun(s, steps) && Run(s, steps) == Run(Delivered(s, pid, draft), rest)
  {
    var tail := SoloPublish(s, pid, draft, rest);
    steps := SoloPrepare(s, pid, draft, tail);
  }

  /** A run in which two processes are handed different credentials. */
  lemma {:induction false} DisagreementWithoutSync() returns (steps: seq<Step>)
    ensures IsRun(EMPTY, steps) && !Agree(Run(EMPTY, steps).returned)
    ensures !Dependable(steps, true) && !Dependable(steps, false)
  {
    var one, two := seq(TOKEN_BYTES, _ => 1), seq(TOKEN_BYTES, _ => 2);
    var a, b := Draft(0, 0, one), Draft(1, 1, two);
    var first := Delivered(EMPTY, 0, a);
    var loss := PowerLoss(map[], first.files);
    var lost := Apply(first, loss);
    var second := Delivered(lost, 1, b);
    var again := SoloRun(lost, 1, b, []);
    RunCons(first, loss, again);
    steps := SoloRun(EMPTY, 0, a, [loss] + again);
    assert second.returned == [one, two];
    assert one[0] != two[0];
    assert second.returned[0] != second.returned[1];
    if Dependable(steps, true) {
      CredentialAgreement(steps, true);
    }
    if Dependable(steps, false) {
      CredentialAgreement(steps, false);
    }
  }

  /** Runs of a host on which syncs may go unsupported, and on which power may fail. */
  ghost predicate Hosted(steps: seq<Step>, unsupported: bool, loss: bool) {
    && IsRun(EMPTY, steps)
    && (!unsupported ==> Dependable(steps, true))
    && (!loss ==> Dependable(steps, false))
  }

  /** All processes of a host agree for ever exactly when not both can happen there. */
  lemma {:induction false} AgreementExactlyWhen(unsupported: bool, loss: bool)
    ensures (forall steps :: Hosted(steps, unsupported, loss) ==> Agree(Run(EMPTY, steps).returned))
            <==> !(unsupported && loss)
  {
    if unsupported && loss {
      var steps := DisagreementWithoutSync();
      assert Hosted(steps, unsupported, loss);
    } else {
      forall steps | Hosted(steps, unsupported, loss)
        ensures Agree(Run(EMPTY, steps).returned)
      {
        CredentialAgreement(steps, !unsupported);
      }
    }
  }
}
