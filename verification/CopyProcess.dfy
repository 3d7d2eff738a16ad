/** copy_process as a sequence of acquisitions with a goto unwinding chain: a failed fork
    leaves every reference count as it found it. */
module CopyProcess {
  import opened Lists

  type Id = nat

  /** Everything copy_process takes a reference to or creates. */
  datatype Kind =
    | TaskStruct | TaskStack | Creds | UserProcesses | DelayAcct | Mempolicy | PerfEvents | AuditContext
    | SecurityBlob | SemUndo | Files | Fs | Sighand | Signal | Mm | Namespaces | IoContext | ThreadState
    | PidNumber | PidFd | PidFile | PidRef | CgroupFork

  datatype Ref = Ref(kind: Kind, id: Id)

  /** References taken since some moment, the latest on top. */
  datatype Stack = Empty | Push(top: Ref, rest: Stack)

  function Contents(s: Stack): multiset<Ref> {
    if s.Empty? then multiset{} else multiset{s.top} + Contents(s.rest)
  }

  function PushNew(kind: Kind, id: Id, s: Stack): Stack {
    Push(Ref(kind, id), s)
  }

  /** A pointer that may be NULL owns something only when it is not. */
  function PushSome(kind: Kind, p: Option<Id>, s: Stack): Stack {
    if p.Some? then Push(Ref(kind, p.value), s) else s
  }

  /** The pointers of task_struct that own something. A new task starts as a copy of current. */
  datatype Task = Task(
    cred: Id, user: Id, cloak: int, delays: bool, mempolicy: Option<Id>,
    files: Option<Id>, fs: Option<Id>, sighand: Option<Id>, signal: Option<Id>, mm: Option<Id>,
    nsproxy: Id, ioContext: Option<Id>)

  datatype Flags = Flags(
    thread: bool, vm: bool, sighand: bool, fs: bool, files: bool, io: bool, parent: bool, pidfd: bool,
    detached: bool, newNs: bool, newUser: bool, newPid: bool)

  datatype Error = EINVAL | ENOMEM | EAGAIN | EINTR | ERESTARTNOINTR | Other(code: int)

  datatype Result = Ok(p: Task) | Err(error: Error)

  /** The places where a callee or a limit may say no. */
  datatype Step =
    | PendingSignal | AllocTask | AllocStack | ChargeStack | ArchDup | ShadowStack | OverNproc | CopyCreds
    | TooManyThreads | DupMempolicy | SchedFork | PerfInit | AuditAlloc | SecurityAlloc | CopySemundo | DupFd
    | FsInExec | CopyFs | AllocSighand | AllocSignal | DupMm | CopyNamespaces | GetIoContext | CopyThread
    | AllocPid | GetUnusedFd | GetFile | PutUser | CgroupCanFork | NamespaceDying | FatalSignal

  /** What copy_process learns from outside: who fails and with what, and what is allocated. */
  datatype Env = Env(
    fails: Step -> Option<Error>,
    unkillable: bool, otherPidNs: bool, otherTimeNs: bool, initPid: bool, ioprioValid: bool, delays: bool,
    cred: Id, user: Id, mempolicy: Id, files: Id, fs: Id, sighand: Id, signal: Id, mm: Id, nsproxy: Id, ioContext: Id)

  // ----- What a task owns after each step, in the order of acquisition -----

  function AfterDup(p: Task, s: Stack): Stack {
    PushNew(TaskStack, 0, PushNew(TaskStruct, 0, s))
  }

  function AfterCreds(p: Task, s: Stack): Stack {
    PushNew(UserProcesses, p.user, PushNew(Creds, p.cred, AfterDup(p, s)))
  }

  function AfterDelays(p: Task, s: Stack): Stack {
    PushSome(DelayAcct, if p.delays then Some(0) else None, AfterCreds(p, s))
  }

  function AfterMempolicy(p: Task, s: Stack): Stack {
    PushSome(Mempolicy, p.mempolicy, AfterDelays(p, s))
  }

  function AfterPerf(p: Task, s: Stack): Stack {
    PushNew(PerfEvents, 0, AfterMempolicy(p, s))
  }

  function AfterAudit(p: Task, s: Stack): Stack {
    PushNew(AuditContext, 0, AfterPerf(p, s))
  }

  function AfterSecurity(p: Task, s: Stack): Stack {
    PushNew(SecurityBlob, 0, AfterAudit(p, s))
  }

  function AfterSemundo(p: Task, s: Stack): Stack {
    PushNew(SemUndo, 0, AfterSecurity(p, s))
  }

  function AfterFs(p: Task, s: Stack): Stack {
    PushSome(Fs, p.fs, PushSome(Files, p.files, AfterSemundo(p, s)))
  }

  function AfterSignal(p: Task, f: Flags, s: Stack): Stack {
    PushSome(Signal, if f.thread then None else p.signal, PushSome(Sighand, p.sighand, AfterFs(p, s)))
  }

  function AfterNamespaces(p: Task, f: Flags, s: Stack): Stack {
    PushNew(Namespaces, p.nsproxy, PushSome(Mm, p.mm, AfterSignal(p, f, s)))
  }

  function AfterThread(p: Task, f: Flags, s: Stack): Stack {
    PushNew(ThreadState, 0, PushSome(IoContext, p.ioContext, AfterNamespaces(p, f, s)))
  }

  function WithPid(e: Env, s: Stack): Stack {
    PushSome(PidNumber, if e.initPid then None else Some(0), s)
  }

  function AfterPid(p: Task, f: Flags, e: Env, s: Stack): Stack {
    WithPid(e, AfterThread(p, f, s))
  }

  function WithPidfd(s: Stack): Stack {
    PushNew(PidRef, 0, PushNew(PidFile, 0, PushNew(PidFd, 0, s)))
  }

  function AfterChecks(f: Flags, s: Stack): Stack {
    PushNew(CgroupFork, 0, if f.pidfd then WithPidfd(s) else s)
  }

  /** What the finished task owns: nothing is missing and nothing is held twice. */
  function Owned(p: Task, f: Flags, e: Env, s: Stack): Stack {
    AfterChecks(f, AfterPid(p, f, e, s))
  }

  /** The flag combinations copy_process refuses before it touches anything. */
  predicate BadFlags(f: Flags, e: Env) {
    || (f.newNs && f.fs) || (f.newUser && f.fs)
    || (f.thread && !f.sighand) || (f.sighand && !f.vm)
    || (f.parent && e.unkillable)
    || (f.thread && (f.newUser || f.newPid || e.otherPidNs))
    || ((f.thread || f.vm) && e.otherTimeNs)
    || (f.pidfd && (f.detached || f.thread))
  }

  // ----- Who is asked, depending on the flags and on what current has -----

  predicate Agrees(e: Env, step: Step) {
    e.fails(step).None?
  }

  /** Whether copy_process comes to ask, by the flags and by what current has. */
  predicate Asked(current: Task, f: Flags, e: Env, step: Step) {
    match step
    case DupMempolicy => current.mempolicy.Some?
    case DupFd => current.files.Some? && !f.files
    case FsInExec => f.fs
    case CopyFs => !f.fs
    case AllocSighand => !f.sighand
    case AllocSignal => !f.thread
    case DupMm => current.mm.Some? && !f.vm
    case GetIoContext => current.ioContext.Some? && !f.io && e.ioprioValid
    case AllocPid => !e.initPid
    case GetUnusedFd | GetFile | PutUser => f.pidfd
    case _ => true
  }

  /** Everybody who is asked agrees. */
  ghost predicate AllPass(current: Task, f: Flags, e: Env) {
    forall step {:trigger Agrees(e, step)} :: Asked(current, f, e, step) ==> Agrees(e, step)
  }

  predicate DupPasses(e: Env) {
    Agrees(e, AllocTask) && Agrees(e, AllocStack) && Agrees(e, ChargeStack) && Agrees(e, ArchDup)
      && Agrees(e, ShadowStack)
  }

  // ----- Who refuses first, and with what -----

  /** The error copy_process makes of a refusal: its own, or the one the callee reports. */
  function CodeOf(e: Env, step: Step): Error {
    match step
    case PendingSignal => ERESTARTNOINTR
    case OverNproc | TooManyThreads | FsInExec => EAGAIN
    case CopyFs | AllocSighand | AllocSignal | DupMm | GetIoContext | NamespaceDying => ENOMEM
    case FatalSignal => EINTR
    case _ => if e.fails(step).Some? then e.fails(step).value else ENOMEM
  }

  /** EAGAIN for what may pass, ENOMEM for what copy_process does not ask about, the callee's own code for
      the rest. */
  lemma CodesByReason(e: Env, step: Step)
    requires !Agrees(e, step)
    ensures step == PendingSignal ==> CodeOf(e, step) == ERESTARTNOINTR
    ensures step == FatalSignal ==> CodeOf(e, step) == EINTR
    ensures step in {OverNproc, TooManyThreads, FsInExec} ==> CodeOf(e, step) == EAGAIN
    ensures step in {CopyFs, AllocSighand, AllocSignal, DupMm, GetIoContext, NamespaceDying}
      ==> CodeOf(e, step) == ENOMEM
    ensures step in {CopyCreds, DupMempolicy, SchedFork, PerfInit, AuditAlloc, SecurityAlloc, CopySemundo, DupFd}
      ==> CodeOf(e, step) == e.fails(step).value
    ensures step in {CopyNamespaces, CopyThread, AllocPid, GetUnusedFd, GetFile, PutUser, CgroupCanFork}
      ==> CodeOf(e, step) == e.fails(step).value
  {
  }

  function Says(e: Env, asked: bool, step: Step): Option<Error> {
    if asked && !Agrees(e, step) then Some(CodeOf(e, step)) else None
  }

  function Or(first: Option<Error>, later: Option<Error>): Option<Error> {
    if first.Some? then first else later
  }

  function LockedRefusal(e: Env): Option<Error> {
    Or(Says(e, true, NamespaceDying), Says(e, true, FatalSignal))
  }

  function LastRefusal(e: Env): Option<Error> {
    Or(Says(e, true, CgroupCanFork), LockedRefusal(e))
  }

  function PidfdRefusal(current: Task, f: Flags, e: Env): Option<Error> {
    Or(Says(e, f.pidfd, GetUnusedFd), Or(Says(e, f.pidfd, GetFile), Or(Says(e, f.pidfd, PutUser), LastRefusal(e))))
  }

  function PidRefusal(current: Task, f: Flags, e: Env): Option<Error> {
    Or(Says(e, !e.initPid, AllocPid), PidfdRefusal(current, f, e))
  }

  function ThreadRefusal(current: Task, f: Flags, e: Env): Option<Error> {
    Or(Says(e, true, CopyThread), PidRefusal(current, f, e))
  }

  function TailRefusal(current: Task, f: Flags, e: Env): Option<Error> {
    Or(Says(e, true, CopyNamespaces),
      Or(Says(e, current.ioContext.Some? && !f.io && e.ioprioValid, GetIoContext), ThreadRefusal(current, f, e)))
  }

  function MmRefusal(current: Task, f: Flags, e: Env): Option<Error> {
    Or(Says(e, current.mm.Some? && !f.vm, DupMm), TailRefusal(current, f, e))
  }

  function SignalRefusal(current: Task, f: Flags, e: Env): Option<Error> {
    Or(Says(e, !f.thread, AllocSignal), MmRefusal(current, f, e))
  }

  function SignalsRefusal(current: Task, f: Flags, e: Env): Option<Error> {
    Or(Says(e, !f.sighand, AllocSighand), SignalRefusal(current, f, e))
  }

  function FsRefusal(current: Task, f: Flags, e: Env): Option<Error> {
    Or(Says(e, true, if f.fs then FsInExec else CopyFs), SignalsRefusal(current, f, e))
  }

  function ImageRefusal(current: Task, f: Flags, e: Env): Option<Error> {
    Or(Says(e, current.files.Some? && !f.files, DupFd), FsRefusal(current, f, e))
  }

  function SemundoRefusal(current: Task, f: Flags, e: Env): Option<Error> {
    Or(Says(e, true, CopySemundo), ImageRefusal(current, f, e))
  }

  function SecurityRefusal(current: Task, f: Flags, e: Env): Option<Error> {
    Or(Says(e, true, SecurityAlloc), SemundoRefusal(current, f, e))
  }

  function AuditRefusal(current: Task, f: Flags, e: Env): Option<Error> {
    Or(Says(e, true, AuditAlloc), SecurityRefusal(current, f, e))
  }

  function PerfRefusal(current: Task, f: Flags, e: Env): Option<Error> {
    Or(Says(e, true, PerfInit), AuditRefusal(current, f, e))
  }

  function SchedRefusal(current: Task, f: Flags, e: Env): Option<Error> {
    Or(Says(e, true, SchedFork), PerfRefusal(current, f, e))
  }

  function PolicyRefusal(current: Task, f: Flags, e: Env): Option<Error> {
    Or(Says(e, current.mempolicy.Some?, DupMempolicy), SchedRefusal(current, f, e))
  }

  function CredsRefusal(current: Task, f: Flags, e: Env): Option<Error> {
    Or(Says(e, true, CopyCreds), Or(Says(e, true, TooManyThreads), PolicyRefusal(current, f, e)))
  }

  function TaskRefusal(current: Task, f: Flags, e: Env): Option<Error> {
    if !DupPasses(e) then Some(ENOMEM)
    else Or(Says(e, true, OverNproc), CredsRefusal(current, f, e))
  }

  /** The error of a fork, or None if nobody who is asked refuses. */
  function Refusal(current: Task, f: Flags, e: Env): Option<Error> {
    if BadFlags(f, e) then Some(EINVAL) else Or(Says(e, true, PendingSignal), TaskRefusal(current, f, e))
  }

  /** It fails with that error, or does not fail. */
  predicate Outcome(result: Result, refusal: Option<Error>) {
    if refusal.Some? then result == Err(refusal.value) else result.Ok?
  }

  /** The stretches of copy_process, from the first question to the last. */
  datatype Stretch = Early | Image | Signals | Names | Pidfd | Last

  function StretchOf(step: Step): Stretch {
    match step
    case DupFd | FsInExec | CopyFs => Image
    case AllocSighand | AllocSignal | DupMm => Signals
    case CopyNamespaces | GetIoContext | CopyThread | AllocPid => Names
    case GetUnusedFd | GetFile | PutUser => Pidfd
    case CgroupCanFork | NamespaceDying | FatalSignal => Last
    case _ => Early
  }

  ghost predicate Passes(current: Task, f: Flags, e: Env, stretch: Stretch) {
    forall step {:trigger Agrees(e, step)} :: StretchOf(step) == stretch && Asked(current, f, e, step) ==>
      Agrees(e, step)
  }

  lemma LastAgree(current: Task, f: Flags, e: Env)
    ensures LastRefusal(e).None? <==> Passes(current, f, e, Last)
  {
    assert Passes(current, f, e, Last)
      <==> Agrees(e, CgroupCanFork) && Agrees(e, NamespaceDying) && Agrees(e, FatalSignal);
  }

  lemma PidfdAgrees(current: Task, f: Flags, e: Env)
    ensures PidfdRefusal(current, f, e).None? <==> Passes(current, f, e, Pidfd) && LastRefusal(e).None?
  {
    assert Passes(current, f, e, Pidfd)
      <==> (f.pidfd ==> Agrees(e, GetUnusedFd) && Agrees(e, GetFile) && Agrees(e, PutUser));
  }

  lemma NamesAgree(current: Task, f: Flags, e: Env)
    ensures TailRefusal(current, f, e).None? <==> Passes(current, f, e, Names) && PidfdRefusal(current, f, e).None?
  {
    assert Passes(current, f, e, Names) <==>
      && Agrees(e, CopyNamespaces) && (current.ioContext.Some? && !f.io && e.ioprioValid ==> Agrees(e, GetIoContext))
      && Agrees(e, CopyThread) && (!e.initPid ==> Agrees(e, AllocPid));
  }

  lemma SignalsAgree(current: Task, f: Flags, e: Env)
    ensures SignalsRefusal(current, f, e).None? <==> Passes(current, f, e, Signals) && TailRefusal(current, f, e).None?
  {
    assert Passes(current, f, e, Signals) <==>
      && (!f.sighand ==> Agrees(e, AllocSighand)) && (!f.thread ==> Agrees(e, AllocSignal))
      && (current.mm.Some? && !f.vm ==> Agrees(e, DupMm));
  }

  lemma ImageAgrees(current: Task, f: Flags, e: Env)
    ensures ImageRefusal(current, f, e).None? <==> Passes(current, f, e, Image) && SignalsRefusal(current, f, e).None?
  {
    assert Passes(current, f, e, Image) <==>
      && (current.files.Some? && !f.files ==> Agrees(e, DupFd)) && Agrees(e, if f.fs then FsInExec else CopyFs);
  }

  lemma EarlyAgree(current: Task, f: Flags, e: Env)
    ensures Or(Says(e, true, PendingSignal), TaskRefusal(current, f, e)).None? <==>
      Passes(current, f, e, Early) && ImageRefusal(current, f, e).None?
  {
  }

  /** The order in which they are asked decides the error only, not the outcome. */
  lemma NobodyRefuses(current: Task, f: Flags, e: Env)
    ensures Refusal(current, f, e).None? <==> !BadFlags(f, e) && AllPass(current, f, e)
  {
    EarlyAgree(current, f, e);
    ImageAgrees(current, f, e);
    SignalsAgree(current, f, e);
    NamesAgree(current, f, e);
    PidfdAgrees(current, f, e);
    LastAgree(current, f, e);
  }

  /** What decides later who is asked is still current's. */
  predicate Keeps(from: Task, current: Task) {
    from.files == current.files && from.mm == current.mm
  }

  // ----- The new task -----

  function NewPolicy(current: Task, e: Env): Option<Id> {
    if current.mempolicy.Some? then Some(e.mempolicy) else None
  }

  function NewFiles(current: Task, f: Flags, e: Env): Option<Id> {
    if current.files.None? || f.files then current.files else Some(e.files)
  }

  function NewMm(current: Task, f: Flags, e: Env): Option<Id> {
    if current.mm.None? || f.vm then current.mm else Some(e.mm)
  }

  function NewIo(io: Option<Id>, f: Flags, e: Env): Option<Id> {
    if io.None? || f.io then io else if e.ioprioValid then Some(e.ioContext) else None
  }

  /** Files and fs of p are shared with from, or new. */
  predicate ImageFrom(p: Task, from: Task, f: Flags, e: Env) {
    p.files == NewFiles(from, f, e) && p.fs == if f.fs then from.fs else Some(e.fs)
  }

  /** So are handlers, signal struct and mm. */
  predicate SignalsFrom(p: Task, from: Task, f: Flags, e: Env) {
    && p.sighand == (if f.sighand then from.sighand else Some(e.sighand))
    && p.signal == (if f.thread then from.signal else Some(e.signal))
    && p.mm == NewMm(from, f, e)
  }

  predicate TailFrom(p: Task, io: Option<Id>, f: Flags, e: Env) {
    p.nsproxy == e.nsproxy && p.ioContext == NewIo(io, f, e)
  }

  predicate AllFrom(p: Task, from: Task, io: Option<Id>, f: Flags, e: Env) {
    ImageFrom(p, from, f, e) && SignalsFrom(p, from, f, e) && TailFrom(p, io, f, e)
  }

  /** The pointers that are settled before the files are copied. */
  predicate SameStart(p: Task, from: Task) {
    && p.cred == from.cred && p.user == from.user && p.delays == from.delays && p.mempolicy == from.mempolicy
    && p.cloak == from.cloak
  }

  /** What each pointer of the new task is, flag by flag. */
  predicate IsNew(p: Task, current: Task, f: Flags, e: Env) {
    && p.cred == e.cred && p.user == e.user && p.cloak == 0 && p.delays == e.delays
    && p.mempolicy == NewPolicy(current, e) && AllFrom(p, current, current.ioContext, f, e)
  }

  /** What the refusals buy: a permitted thread shares handlers, signal struct and mm with current, and
      whoever shares handlers shares the mm. */
  lemma PermittedSharing(p: Task, current: Task, f: Flags, e: Env)
    requires !BadFlags(f, e) && IsNew(p, current, f, e)
    ensures f.sighand ==> p.sighand == current.sighand && p.mm == current.mm
    ensures f.thread ==> p.signal == current.signal && p.sighand == current.sighand && p.mm == current.mm
  {
  }

  /** Which combinations are permitted, by what the caller asks for. */
  lemma PermittedFlags(f: Flags, e: Env)
    ensures !BadFlags(f, e) <==>
      && (f.thread ==> f.sighand && !f.newUser && !f.newPid && !e.otherPidNs && !f.pidfd)
      && (f.sighand ==> f.vm) && (f.vm ==> !e.otherTimeNs) && (f.fs ==> !f.newNs && !f.newUser)
      && (f.parent ==> !e.unkillable) && (f.pidfd ==> !f.detached)
  {
  }

  /** What does not exist yet cannot be current's. */
  predicate Unused(current: Task, e: Env) {
    && current.mempolicy != Some(e.mempolicy) && current.files != Some(e.files) && current.fs != Some(e.fs)
    && current.sighand != Some(e.sighand) && current.signal != Some(e.signal) && current.mm != Some(e.mm)
    && current.ioContext != Some(e.ioContext)
  }

  /** An object is made exactly if its maker is asked: what the new task has is its own then, and current's
      otherwise; only an I/O context may be missing. */
  lemma MadeIfAsked(p: Task, current: Task, f: Flags, e: Env)
    requires IsNew(p, current, f, e) && Unused(current, e) && current.fs.Some?
    ensures Asked(current, f, e, DupMempolicy) <==> p.mempolicy != current.mempolicy
    ensures Asked(current, f, e, DupFd) <==> p.files != current.files
    ensures Asked(current, f, e, CopyFs) <==> p.fs != current.fs
    ensures Asked(current, f, e, FsInExec) <==> p.fs == current.fs
    ensures Asked(current, f, e, AllocSighand) <==> p.sighand != current.sighand
    ensures Asked(current, f, e, AllocSignal) <==> p.signal != current.signal
    ensures Asked(current, f, e, DupMm) <==> p.mm != current.mm
    ensures Asked(current, f, e, GetIoContext) <==> p.ioContext == Some(e.ioContext)
  {
  }

  // ----- What is owned, kind by kind -----

  /** How many references of a kind and id the finished task owns. */
  function Owns(p: Task, f: Flags, e: Env, r: Ref): nat {
    if (match r.kind
        case Creds => r.id == p.cred
        case UserProcesses => r.id == p.user
        case DelayAcct => p.delays && r.id == 0
        case Mempolicy => p.mempolicy == Some(r.id)
        case Files => p.files == Some(r.id)
        case Fs => p.fs == Some(r.id)
        case Sighand => p.sighand == Some(r.id)
        case Signal => !f.thread && p.signal == Some(r.id)
        case Mm => p.mm == Some(r.id)
        case Namespaces => r.id == p.nsproxy
        case IoContext => p.ioContext == Some(r.id)
        case PidNumber => !e.initPid && r.id == 0
        case PidFd | PidFile | PidRef => f.pidfd && r.id == 0
        case _ => r.id == 0)
    then 1 else 0
  }

  function Count(s: Stack, r: Ref): nat {
    if s.Empty? then 0 else Count(s.rest, r) + if s.top == r then 1 else 0
  }

  lemma {:induction false} ContentsCount(s: Stack, r: Ref)
    ensures Contents(s)[r] == Count(s, r)
  {
    if s.Push? { ContentsCount(s.rest, r); }
  }

  function One(kind: Kind, id: Id, r: Ref): nat {
    if r == Ref(kind, id) then 1 else 0
  }

  function OneSome(kind: Kind, p: Option<Id>, r: Ref): nat {
    if p.Some? then One(kind, p.value, r) else 0
  }

  function FromStart(p: Task, r: Ref): nat {
    One(TaskStruct, 0, r) + One(TaskStack, 0, r) + One(Creds, p.cred, r) + One(UserProcesses, p.user, r)
    + OneSome(DelayAcct, if p.delays then Some(0) else None, r) + OneSome(Mempolicy, p.mempolicy, r)
  }

  function FromHooks(r: Ref): nat {
    One(PerfEvents, 0, r) + One(AuditContext, 0, r) + One(SecurityBlob, 0, r) + One(SemUndo, 0, r)
  }

  function FromShared(p: Task, f: Flags, r: Ref): nat {
    OneSome(Files, p.files, r) + OneSome(Fs, p.fs, r)
    + OneSome(Sighand, p.sighand, r) + OneSome(Signal, if f.thread then None else p.signal, r)
  }

  function FromTail(p: Task, r: Ref): nat {
    OneSome(Mm, p.mm, r) + One(Namespaces, p.nsproxy, r) + OneSome(IoContext, p.ioContext, r) + One(ThreadState, 0, r)
  }

  function FromChecks(e: Env, f: Flags, r: Ref): nat {
    One(CgroupFork, 0, r)
    + OneSome(PidNumber, if e.initPid then None else Some(0), r)
    + if f.pidfd then One(PidFd, 0, r) + One(PidFile, 0, r) + One(PidRef, 0, r) else 0
  }

  lemma CountStart(p: Task, s: Stack, r: Ref)
    ensures Count(AfterMempolicy(p, s), r) == Count(s, r) + FromStart(p, r)
  {
    var dup := AfterDup(p, s);
    assert Count(dup, r) == Count(s, r) + One(TaskStruct, 0, r) + One(TaskStack, 0, r);
    var creds := AfterCreds(p, s);
    assert Count(creds, r) == Count(dup, r) + One(Creds, p.cred, r) + One(UserProcesses, p.user, r);
  }

  lemma CountHooks(p: Task, s: Stack, r: Ref)
    ensures Count(AfterSemundo(p, s), r) == Count(AfterMempolicy(p, s), r) + FromHooks(r)
  {
    assert Count(AfterAudit(p, s), r)
        == Count(AfterMempolicy(p, s), r) + One(PerfEvents, 0, r) + One(AuditContext, 0, r);
  }

  lemma CountSignals(p: Task, f: Flags, s: Stack, r: Ref)
    ensures Count(AfterSignal(p, f, s), r) == Count(AfterSemundo(p, s), r) + FromShared(p, f, r)
  {
    assert Count(AfterFs(p, s), r) == Count(AfterSemundo(p, s), r) + OneSome(Files, p.files, r) + OneSome(Fs, p.fs, r);
  }

  lemma CountTail(p: Task, f: Flags, s: Stack, r: Ref)
    ensures Count(AfterThread(p, f, s), r) == Count(AfterSignal(p, f, s), r) + FromTail(p, r)
  {
    assert Count(AfterNamespaces(p, f, s), r) == Count(AfterSignal(p, f, s), r)
      + OneSome(Mm, p.mm, r) + One(Namespaces, p.nsproxy, r);
  }

  lemma CountChecks(e: Env, f: Flags, s: Stack, r: Ref)
    ensures Count(AfterChecks(f, WithPid(e, s)), r) == Count(s, r) + FromChecks(e, f, r)
  {
    var pid := WithPid(e, s);
    assert Count(pid, r) == Count(s, r) + OneSome(PidNumber, if e.initPid then None else Some(0), r);
    var file := PushNew(PidFile, 0, PushNew(PidFd, 0, pid));
    assert Count(file, r) == Count(pid, r) + One(PidFd, 0, r) + One(PidFile, 0, r);
  }

  datatype Part = StartPart | HooksPart | SharedPart | TailPart | ChecksPart

  function PartOf(kind: Kind): Part {
    match kind
    case TaskStruct | TaskStack | Creds | UserProcesses | DelayAcct | Mempolicy => StartPart
    case PerfEvents | AuditContext | SecurityBlob | SemUndo => HooksPart
    case Files | Fs | Sighand | Signal => SharedPart
    case Mm | Namespaces | IoContext | ThreadState => TailPart
    case CgroupFork | PidNumber | PidFd | PidFile | PidRef => ChecksPart
  }

  lemma OwnsStart(p: Task, f: Flags, e: Env, r: Ref)
    ensures FromStart(p, r) == if PartOf(r.kind) == StartPart then Owns(p, f, e, r) else 0
  {
  }

  lemma OwnsHooks(p: Task, f: Flags, e: Env, r: Ref)
    ensures FromHooks(r) == if PartOf(r.kind) == HooksPart then Owns(p, f, e, r) else 0
  {
  }

  lemma OwnsShared(p: Task, f: Flags, e: Env, r: Ref)
    ensures FromShared(p, f, r) == if PartOf(r.kind) == SharedPart then Owns(p, f, e, r) else 0
  {
  }

  lemma OwnsTail(p: Task, f: Flags, e: Env, r: Ref)
    ensures FromTail(p, r) == if PartOf(r.kind) == TailPart then Owns(p, f, e, r) else 0
  {
  }

  lemma OwnsChecks(p: Task, f: Flags, e: Env, r: Ref)
    ensures FromChecks(e, f, r) == if PartOf(r.kind) == ChecksPart then Owns(p, f, e, r) else 0
  {
  }

  /** The finished task owns every object it points to once, whatever order they were acquired in. */
  lemma OwnedIsOwns(p: Task, f: Flags, e: Env, r: Ref)
    ensures Contents(Owned(p, f, e, Empty))[r] == Owns(p, f, e, r)
  {
    ContentsCount(Owned(p, f, e, Empty), r);
    CountStart(p, Empty, r);
    CountHooks(p, Empty, r);
    CountSignals(p, f, Empty, r);
    CountTail(p, f, Empty, r);
    CountChecks(e, f, AfterThread(p, f, Empty), r);
    OwnsStart(p, f, e, r);
    OwnsHooks(p, f, e, r);
    OwnsShared(p, f, e, r);
    OwnsTail(p, f, e, r);
    OwnsChecks(p, f, e, r);
  }

  lemma RefsGrow(before: multiset<Ref>, after: multiset<Ref>, p: Task, f: Flags, e: Env)
    requires after == before + Contents(Owned(p, f, e, Empty))
    ensures forall r {:trigger Owns(p, f, e, r)} :: after[r] == before[r] + Owns(p, f, e, r)
  {
    forall r ensures after[r] == before[r] + Owns(p, f, e, r) { OwnedIsOwns(p, f, e, r); }
  }

  /** A fork that duplicates the mm leaves the old one's count alone; one that shares it adds one. */
  lemma MmCount(before: multiset<Ref>, after: multiset<Ref>, p: Task, current: Task, f: Flags, e: Env)
    requires after == before + Contents(Owned(p, f, e, Empty)) && IsNew(p, current, f, e)
    requires current.mm.Some? && e.mm != current.mm.value
    ensures after[Ref(Mm, current.mm.value)] == before[Ref(Mm, current.mm.value)] + if f.vm then 1 else 0
  {
    OwnedIsOwns(p, f, e, Ref(Mm, current.mm.value));
  }

  // ----- The order of acquisitions and releases -----

  datatype Event = Got(ref: Ref) | Dropped(ref: Ref)

  datatype History = Start | Then(before: History, event: Event)

  /** What is held after a history, if every release in it was of the latest reference held. */
  function Replay(log: History): Option<Stack> {
    if log.Start? then Some(Empty)
    else
      var s := Replay(log.before);
      match log.event
      case Got(r) => if s.None? then None else Some(Push(r, s.value))
      case Dropped(r) => if s.None? || s.value.Empty? || s.value.top != r then None else Some(s.value.rest)
  }

  function Times(log: History, e: Event): nat {
    if log.Start? then 0 else Times(log.before, e) + if log.event == e then 1 else 0
  }

  /** In such a history each reference acquired has been released exactly once, or is still held. */
  lemma {:induction false} ReleasedOnce(log: History, r: Ref)
    requires Replay(log).Some?
    ensures Times(log, Got(r)) == Times(log, Dropped(r)) + Contents(Replay(log).value)[r]
  {
    if log.Then? { ReleasedOnce(log.before, r); }
  }

  /** Everything acquired in the history has been released, once for each time. */
  ghost predicate Balanced(log: History) {
    forall r {:trigger Times(log, Got(r))} :: Times(log, Got(r)) == Times(log, Dropped(r))
  }

  lemma NothingHeldIsBalanced(log: History)
    requires Replay(log) == Some(Empty)
    ensures Balanced(log)
  {
    forall r ensures Times(log, Got(r)) == Times(log, Dropped(r)) {
      ReleasedOnce(log, r);
    }
  }

  /** h is an earlier moment of log. */
  predicate Within(h: History, log: History) {
    h == log || (log.Then? && Within(h, log.before))
  }

  /** Nothing that had happened has been struck out. */
  ghost predicate Later(earlier: History, log: History) {
    forall h {:trigger Within(h, earlier)} :: Within(h, earlier) ==> Within(h, log)
  }

  class Kernel {
    var refs: multiset<Ref>        // reference counts of all objects
    var multiprocess: set<nat>     // current->signal->multiprocess: forks in progress
    ghost var held: Stack          // what the fork in progress holds, latest first
    ghost var base: multiset<Ref>  // the counts without what it holds

    ghost var log: History         // every acquisition and release of the fork in progress

    ghost predicate Valid()
      reads this
    {
      refs == base + Contents(held) && Replay(log) == Some(held)
    }

    method Get(kind: Kind, id: Id)
      requires Valid()
      modifies this`refs, this`held, this`log
      ensures Valid() && held == PushNew(kind, id, old(held))
      ensures log == Then(old(log), Got(Ref(kind, id))) && Later(old(log), log)
    {
      refs := refs + multiset{Ref(kind, id)};
      held := PushNew(kind, id, held);
      log := Then(log, Got(Ref(kind, id)));
    }

    /** Only the latest reference still held may be dropped. */
    method Put(kind: Kind, id: Id)
      requires Valid() && held.Push? && held.top == Ref(kind, id)
      modifies this`refs, this`held, this`log
      ensures Valid() && held == old(held).rest
      ensures log == Then(old(log), Dropped(Ref(kind, id))) && Later(old(log), log)
    {
      assert Contents(held) == multiset{Ref(kind, id)} + Contents(held.rest);
      refs := refs - multiset{Ref(kind, id)};
      held := held.rest;
      log := Then(log, Dropped(Ref(kind, id)));
    }

    /** An exit_* helper: drop what the pointer owns, if it is not NULL. */
    method PutSome(kind: Kind, p: Option<Id>, ghost rest: Stack)
      requires Valid() && held == PushSome(kind, p, rest)
      modifies this`refs, this`held, this`log
      ensures Later(old(log), log)
      ensures Valid() && held == rest
    {
      if p.Some? { Put(kind, p.value); }
    }

    /** A callee that either takes one reference or fails and takes none. */
    method TryGet(kind: Kind, id: Id, fail: Option<Error>)
      requires Valid()
      modifies this`refs, this`held, this`log
      ensures Later(old(log), log)
      ensures Valid() && held == if fail.Some? then old(held) else PushNew(kind, id, old(held))
    {
      if fail.None? { Get(kind, id); }
    }

    method DupTaskStruct(current: Task, e: Env) returns (p: Option<Task>)
      requires Valid()
      modifies this`refs, this`held, this`log
      ensures Later(old(log), log)
      ensures Valid() && held == if p.Some? then AfterDup(current, old(held)) else old(held)
      ensures p.Some? ==> p.value == current
      ensures p.Some? <==> DupPasses(e)
    {
      if e.fails(AllocTask).Some? { return None; }
      Get(TaskStruct, 0);
      label free_tsk: {
        if e.fails(AllocStack).Some? { break free_tsk; }
        Get(TaskStack, 0);
        label free_stack: {
          if e.fails(ChargeStack).Some? { break free_stack; }
          if e.fails(ArchDup).Some? { break free_stack; }
          if e.fails(ShadowStack).Some? { break free_stack; }
          return Some(current);
        }
        Put(TaskStack, 0);
      }
      Put(TaskStruct, 0);
      return None;
    }

    method CopyFiles(f: Flags, e: Env, p: Task) returns (p': Task, fail: Option<Error>)
      requires Valid()
      modifies this`refs, this`held, this`log
      ensures Later(old(log), log)
      ensures Valid() && held == if fail.Some? then old(held) else PushSome(Files, p'.files, old(held))
      ensures p' == p.(files := p'.files) && (fail.None? ==> p'.files == NewFiles(p, f, e))
      ensures fail == Says(e, p.files.Some? && !f.files, DupFd)
    {
      p', fail := p, None;
      if p.files.None? { return; }
      if f.files {
        Get(Files, p.files.value);
        return;
      }
      fail := e.fails(DupFd);
      if fail.Some? { return; }
      Get(Files, e.files);
      p' := p.(files := Some(e.files));
    }

    method CopyFsStruct(f: Flags, e: Env, p: Task) returns (p': Task, fail: Option<Error>)
      requires Valid() && p.fs.Some?
      modifies this`refs, this`held, this`log
      ensures Later(old(log), log)
      ensures Valid() && held == if fail.Some? then old(held) else PushSome(Fs, p'.fs, old(held))
      ensures p' == p.(fs := p'.fs) && (fail.None? ==> p'.fs == if f.fs then p.fs else Some(e.fs))
      ensures fail == Says(e, true, if f.fs then FsInExec else CopyFs)
    {
      p', fail := p, None;
      if f.fs {
        if e.fails(FsInExec).Some? { return p, Some(EAGAIN); }
        Get(Fs, p.fs.value);
        return;
      }
      if e.fails(CopyFs).Some? { return p.(fs := None), Some(ENOMEM); }
      Get(Fs, e.fs);
      p' := p.(fs := Some(e.fs));
    }

    method CopySighand(f: Flags, e: Env, p: Task) returns (p': Task, fail: Option<Error>)
      requires Valid() && p.sighand.Some?
      modifies this`refs, this`held, this`log
      ensures Later(old(log), log)
      ensures Valid() && held == if fail.Some? then old(held) else PushSome(Sighand, p'.sighand, old(held))
      ensures p' == p.(sighand := p'.sighand)
      ensures fail.None? ==> p'.sighand == if f.sighand then p.sighand else Some(e.sighand)
      ensures fail == Says(e, !f.sighand, AllocSighand)
    {
      p', fail := p, None;
      if f.sighand {
        Get(Sighand, p.sighand.value);
        return;
      }
      if e.fails(AllocSighand).Some? { return p.(sighand := None), Some(ENOMEM); }
      Get(Sighand, e.sighand);
      p' := p.(sighand := Some(e.sighand));
    }

    method CopySignal(f: Flags, e: Env, p: Task) returns (p': Task, fail: Option<Error>)
      requires Valid()
      modifies this`refs, this`held, this`log
      ensures Later(old(log), log)
      ensures Valid()
      ensures held == if fail.Some? then old(held)
        else PushSome(Signal, if f.thread then None else p'.signal, old(held))
      ensures p' == p.(signal := p'.signal)
      ensures fail.None? ==> p'.signal == if f.thread then p.signal else Some(e.signal)
      ensures fail == Says(e, !f.thread, AllocSignal)
    {
      p', fail := p, None;
      if f.thread { return; }
      if e.fails(AllocSignal).Some? { return p.(signal := None), Some(ENOMEM); }
      Get(Signal, e.signal);
      p' := p.(signal := Some(e.signal));
    }

    method CopyMm(f: Flags, e: Env, p: Task) returns (p': Task, fail: Option<Error>)
      requires Valid()
      modifies this`refs, this`held, this`log
      ensures Later(old(log), log)
      ensures Valid() && held == if fail.Some? then old(held) else PushSome(Mm, p'.mm, old(held))
      ensures p' == p.(mm := p'.mm) && (fail.None? ==> p'.mm == NewMm(p, f, e))
      ensures fail == Says(e, p.mm.Some? && !f.vm, DupMm)
    {
      var oldmm := p.mm;
      p', fail := p.(mm := None), None;
      if oldmm.None? { return; }
      if f.vm {
        Get(Mm, oldmm.value);
        p' := p.(mm := oldmm);
      } else {
        if e.fails(DupMm).Some? { return p', Some(ENOMEM); }
        Get(Mm, e.mm);
        p' := p.(mm := Some(e.mm));
      }
    }

    method CopyIo(f: Flags, e: Env, p: Task, currentIo: Option<Id>) returns (p': Task, fail: Option<Error>)
      requires Valid() && p.ioContext.None?
      modifies this`refs, this`held, this`log
      ensures Later(old(log), log)
      ensures Valid() && held == if fail.Some? then old(held) else PushSome(IoContext, p'.ioContext, old(held))
      ensures p' == p.(ioContext := p'.ioContext) && (fail.None? ==> p'.ioContext == NewIo(currentIo, f, e))
      ensures fail == Says(e, currentIo.Some? && !f.io && e.ioprioValid, GetIoContext)
    {
      p', fail := p, None;
      if currentIo.None? { return; }
      if f.io {
        Get(IoContext, currentIo.value);
        p' := p.(ioContext := currentIo);
      } else if e.ioprioValid {
        if e.fails(GetIoContext).Some? { return p, Some(ENOMEM); }
        Get(IoContext, e.ioContext);  // the task's
        Get(IoContext, e.ioContext);  // the caller's
        p' := p.(ioContext := Some(e.ioContext));
        Put(IoContext, e.ioContext);
      }
    }

    /** The flag checks, in source order. */
    method CheckFlags(f: Flags, e: Env) returns (bad: bool)
      ensures bad <==> BadFlags(f, e)
    {
      if f.newNs && f.fs { return true; }
      if f.newUser && f.fs { return true; }
      if f.thread && !f.sighand { return true; }
      if f.sighand && !f.vm { return true; }
      if f.parent && e.unkillable { return true; }
      if f.thread {
        if f.newUser || f.newPid || e.otherPidNs { return true; }
      }
      if f.thread || f.vm {
        if e.otherTimeNs { return true; }
      }
      if f.pidfd {
        if f.detached || f.thread { return true; }
      }
      return false;
    }

    /** copy_process up to the point of no failure. The labels of the source are nested blocks:
        breaking out of a block is the goto, and leaving it runs the rest of the unwinding. On
        failure everything it acquired has been released, latest first and once each: its log
        replays to nothing held. */
    method CopyProcess(current: Task, f: Flags, e: Env, delayed: nat) returns (result: Result)
      requires delayed !in multiprocess && current.fs.Some? && current.sighand.Some?
      modifies this
      ensures Valid() && base == old(refs) && multiprocess == old(multiprocess)
      ensures result.Ok? <==> !BadFlags(f, e) && AllPass(current, f, e)
      ensures Outcome(result, Refusal(current, f, e))
      ensures result.Err? ==> refs == old(refs) && Replay(log) == Some(Empty) && Balanced(log)
      ensures result.Ok? ==>
        && IsNew(result.p, current, f, e) && held == Owned(result.p, f, e, Empty)
        && refs == old(refs) + Contents(held) && Replay(log) == Some(held)
      ensures result.Ok? ==> var p := result.p;
        && p.cloak == 0 && p.cred == e.cred && p.user == e.user && p.nsproxy == e.nsproxy
        && p.mempolicy == (if current.mempolicy.Some? then Some(e.mempolicy) else None)
        && p.files == (if f.files || current.files.None? then current.files else Some(e.files))
        && p.fs == (if f.fs then current.fs else Some(e.fs))
        && p.sighand == (if f.sighand then current.sighand else Some(e.sighand))
        && p.signal == (if f.thread then current.signal else Some(e.signal))
        && p.mm == (if f.vm || current.mm.None? then current.mm else Some(e.mm))
        && (current.ioContext.None? || f.io ==> p.ioContext == current.ioContext)
        && (current.ioContext.Some? && !f.io ==> p.ioContext == if e.ioprioValid then Some(e.ioContext) else None)
      ensures result.Ok? ==>
        forall r {:trigger Owns(result.p, f, e, r)} :: refs[r] == old(refs)[r] + Owns(result.p, f, e, r)
      ensures result.Ok? && current.mm.Some? && e.mm != current.mm.value ==>
        refs[Ref(Mm, current.mm.value)] == old(refs)[Ref(Mm, current.mm.value)] + if f.vm then 1 else 0
    {
      held, base, log := Empty, refs, Start;
      var bad := CheckFlags(f, e);
      if bad {
        result := Err(EINVAL);
      } else {
        result := CopyPermitted(current, f, e, delayed);
      }
      NobodyRefuses(current, f, e);
      if result.Ok? {
        RefsGrow(base, refs, result.p, f, e);
        if current.mm.Some? && e.mm != current.mm.value { MmCount(base, refs, result.p, current, f, e); }
      } else {
        NothingHeldIsBalanced(log);
      }
    }

    /** What follows the flag checks, with the fork on the list of those in progress meanwhile. */
    method CopyPermitted(current: Task, f: Flags, e: Env, delayed: nat) returns (result: Result)
      requires Valid() && delayed !in multiprocess && current.fs.Some? && current.sighand.Some?
      modifies this`refs, this`held, this`log, this`multiprocess
      ensures Later(old(log), log)
      ensures Valid() && multiprocess == old(multiprocess)
      ensures Outcome(result, Or(Says(e, true, PendingSignal), TaskRefusal(current, f, e)))
      ensures result.Err? ==> held == old(held)
      ensures result.Ok? ==> held == Owned(result.p, f, e, old(held)) && IsNew(result.p, current, f, e)
    {
      if !f.thread { multiprocess := multiprocess + {delayed}; }
      if e.fails(PendingSignal).Some? {
        result := Err(ERESTARTNOINTR);
      } else {
        result := CopyTask(current, f, e);
      }
      multiprocess := multiprocess - {delayed};
    }

    /** From dup_task_struct on: the label bad_fork_free. */
    method CopyTask(current: Task, f: Flags, e: Env) returns (result: Result)
      requires Valid() && current.fs.Some? && current.sighand.Some?
      modifies this`refs, this`held, this`log
      ensures Later(old(log), log)
      ensures Valid()
      ensures Outcome(result, TaskRefusal(current, f, e))
      ensures result.Err? ==> held == old(held)
      ensures result.Ok? ==> held == Owned(result.p, f, e, old(held)) && IsNew(result.p, current, f, e)
    {
      ghost var s := held;
      var dup := DupTaskStruct(current, e);
      if dup.None? { return Err(ENOMEM); }
      var p := dup.value.(cloak := 0);
      var retval := EAGAIN;
      label bad_fork_free: {
        if e.fails(OverNproc).Some? { break bad_fork_free; }
        result := CopyCounted(current, p, f, e, s);
        if result.Ok? { return; }
        retval := result.error;
      }
      Put(TaskStack, 0);
      Put(TaskStruct, 0);
      return Err(retval);
    }

    /** Credentials: the second half of the label bad_fork_cleanup_count. */
    method CopyCounted(current: Task, from: Task, f: Flags, e: Env, ghost s: Stack) returns (result: Result)
      requires Valid() && held == AfterDup(from, s) && from == current.(cloak := 0)
      requires current.fs.Some? && current.sighand.Some?
      modifies this`refs, this`held, this`log
      ensures Later(old(log), log)
      ensures Valid()
      ensures Outcome(result, CredsRefusal(current, f, e))
      ensures result.Err? ==> held == old(held)
      ensures result.Ok? ==> held == Owned(result.p, f, e, s) && IsNew(result.p, current, f, e)
    {
      var fail := e.fails(CopyCreds);
      if fail.Some? { return Err(fail.value); }
      var p := from.(cred := e.cred, user := e.user);
      Get(Creds, p.cred);
      Get(UserProcesses, p.user);
      result := CopyLimited(current, p, f, e, s);
      if result.Ok? { return; }
      Put(UserProcesses, p.user);
      Put(Creds, p.cred);
    }

    /** The limit on threads, before anything more is taken. */
    method CopyLimited(current: Task, from: Task, f: Flags, e: Env, ghost s: Stack) returns (result: Result)
      requires Valid() && held == AfterCreds(from, s) && from == current.(cloak := 0, cred := e.cred, user := e.user)
      requires current.fs.Some? && current.sighand.Some?
      modifies this`refs, this`held, this`log
      ensures Later(old(log), log)
      ensures Valid()
      ensures Outcome(result, Or(Says(e, true, TooManyThreads), PolicyRefusal(current, f, e)))
      ensures result.Err? ==> held == old(held)
      ensures result.Ok? ==> held == Owned(result.p, f, e, s) && IsNew(result.p, current, f, e)
    {
      if e.fails(TooManyThreads).Some? { return Err(EAGAIN); }
      var p, fail := CopyDelays(current, from.(delays := e.delays, ioContext := None), f, e, s);
      result := if fail.None? then Ok(p) else Err(fail.value);
    }

    /** Delay accounting, released at the label bad_fork_cleanup_threadgroup_lock. */
    method CopyDelays(current: Task, from: Task, f: Flags, e: Env, ghost s: Stack)
        returns (p: Task, fail: Option<Error>)
      requires Valid() && held == AfterCreds(from, s) && from.ioContext.None? && from.mempolicy == current.mempolicy
      requires Keeps(from, current) && from.fs.Some? && from.sighand.Some?
      modifies this`refs, this`held, this`log
      ensures Later(old(log), log)
      ensures Valid()
      ensures fail == PolicyRefusal(current, f, e)
      ensures fail.None? ==> AllFrom(p, from, current.ioContext, f, e) && p.mempolicy == NewPolicy(from, e)
      ensures held == if fail.Some? then old(held) else Owned(p, f, e, s)
      ensures p.cred == from.cred && p.user == from.user && p.delays == from.delays && p.cloak == from.cloak
    {
      if from.delays { Get(DelayAcct, 0); }
      p, fail := CopyPolicy(current, from, f, e, s);
      if fail.None? { return; }
      PutSome(DelayAcct, if p.delays then Some(0) else None, AfterCreds(p, s));
    }

    /** The NUMA policy, and the label bad_fork_cleanup_policy. */
    method CopyPolicy(current: Task, from: Task, f: Flags, e: Env, ghost s: Stack)
        returns (p: Task, fail: Option<Error>)
      requires Valid() && held == AfterDelays(from, s) && from.ioContext.None? && from.mempolicy == current.mempolicy
      requires Keeps(from, current) && from.fs.Some? && from.sighand.Some?
      modifies this`refs, this`held, this`log
      ensures Later(old(log), log)
      ensures Valid()
      ensures fail == PolicyRefusal(current, f, e)
      ensures fail.None? ==> AllFrom(p, from, current.ioContext, f, e) && p.mempolicy == NewPolicy(from, e)
      ensures held == if fail.Some? then old(held) else Owned(p, f, e, s)
      ensures p.cred == from.cred && p.user == from.user && p.delays == from.delays && p.cloak == from.cloak
    {
      p, fail := from, None;
      if p.mempolicy.Some? {
        fail := e.fails(DupMempolicy);
        if fail.Some? { return p.(mempolicy := None), fail; }
        p := p.(mempolicy := Some(e.mempolicy));
        Get(Mempolicy, e.mempolicy);
      }
      p, fail := CopySched(current, p, f, e, s);
      if fail.Some? { PutSome(Mempolicy, p.mempolicy, AfterDelays(p, s)); }
    }

    /** sched_fork, which takes nothing. */
    method CopySched(current: Task, from: Task, f: Flags, e: Env, ghost s: Stack) returns (p: Task, fail: Option<Error>)
      requires Valid() && held == AfterMempolicy(from, s) && from.ioContext.None?
      requires Keeps(from, current) && from.fs.Some? && from.sighand.Some?
      modifies this`refs, this`held, this`log
      ensures Later(old(log), log)
      ensures Valid()
      ensures fail == SchedRefusal(current, f, e)
      ensures fail.None? ==> AllFrom(p, from, current.ioContext, f, e)
      ensures held == if fail.Some? then old(held) else Owned(p, f, e, s)
      ensures SameStart(p, from)
    {
      p, fail := from, e.fails(SchedFork);
      if fail.Some? { return; }
      p, fail := CopyPerf(current, from, f, e, s);
    }

    /** perf_event_init_task, and the label bad_fork_cleanup_perf. */
    method CopyPerf(current: Task, from: Task, f: Flags, e: Env, ghost s: Stack) returns (p: Task, fail: Option<Error>)
      requires Valid() && held == AfterMempolicy(from, s) && from.ioContext.None?
      requires Keeps(from, current) && from.fs.Some? && from.sighand.Some?
      modifies this`refs, this`held, this`log
      ensures Later(old(log), log)
      ensures Valid()
      ensures fail == PerfRefusal(current, f, e)
      ensures fail.None? ==> AllFrom(p, from, current.ioContext, f, e)
      ensures held == if fail.Some? then old(held) else Owned(p, f, e, s)
      ensures SameStart(p, from)
    {
      p, fail := from, e.fails(PerfInit);
      TryGet(PerfEvents, 0, fail);
      if fail.Some? { return; }
      p, fail := CopyAudit(current, from, f, e, s);
      if fail.Some? { Put(PerfEvents, 0); }
    }

    /** audit_alloc, and the label bad_fork_cleanup_audit. */
    method CopyAudit(current: Task, from: Task, f: Flags, e: Env, ghost s: Stack) returns (p: Task, fail: Option<Error>)
      requires Valid() && held == AfterPerf(from, s) && from.ioContext.None?
      requires Keeps(from, current) && from.fs.Some? && from.sighand.Some?
      modifies this`refs, this`held, this`log
      ensures Later(old(log), log)
      ensures Valid()
      ensures fail == AuditRefusal(current, f, e)
      ensures fail.None? ==> AllFrom(p, from, current.ioContext, f, e)
      ensures held == if fail.Some? then old(held) else Owned(p, f, e, s)
      ensures SameStart(p, from)
    {
      p, fail := from, e.fails(AuditAlloc);
      TryGet(AuditContext, 0, fail);
      if fail.Some? { return; }
      p, fail := CopySecurity(current, from, f, e, s);
      if fail.Some? { Put(AuditContext, 0); }
    }

    /** security_task_alloc, and the label bad_fork_cleanup_security. */
    method CopySecurity(current: Task, from: Task, f: Flags, e: Env, ghost s: Stack)
        returns (p: Task, fail: Option<Error>)
      requires Valid() && held == AfterAudit(from, s) && from.ioContext.None?
      requires Keeps(from, current) && from.fs.Some? && from.sighand.Some?
      modifies this`refs, this`held, this`log
      ensures Later(old(log), log)
      ensures Valid()
      ensures fail == SecurityRefusal(current, f, e)
      ensures fail.None? ==> AllFrom(p, from, current.ioContext, f, e)
      ensures held == if fail.Some? then old(held) else Owned(p, f, e, s)
      ensures SameStart(p, from)
    {
      p, fail := from, e.fails(SecurityAlloc);
      TryGet(SecurityBlob, 0, fail);
      if fail.Some? { return; }
      p, fail := CopyUndo(current, from, f, e, s);
      if fail.Some? { Put(SecurityBlob, 0); }
    }

    /** copy_semundo, and the label bad_fork_cleanup_semundo. */
    method CopyUndo(current: Task, from: Task, f: Flags, e: Env, ghost s: Stack) returns (p: Task, fail: Option<Error>)
      requires Valid() && held == AfterSecurity(from, s) && from.ioContext.None?
      requires Keeps(from, current) && from.fs.Some? && from.sighand.Some?
      modifies this`refs, this`held, this`log
      ensures Later(old(log), log)
      ensures Valid()
      ensures fail == SemundoRefusal(current, f, e)
      ensures fail.None? ==> AllFrom(p, from, current.ioContext, f, e)
      ensures held == if fail.Some? then old(held) else Owned(p, f, e, s)
      ensures SameStart(p, from)
    {
      p, fail := from, e.fails(CopySemundo);
      TryGet(SemUndo, 0, fail);
      if fail.Some? { return; }
      p, fail := CopyImage(current, from, f, e, s);
      if fail.Some? { Put(SemUndo, 0); }
    }

    /** Files, and the label bad_fork_cleanup_files. */
    method CopyImage(current: Task, from: Task, f: Flags, e: Env, ghost s: Stack) returns (p: Task, fail: Option<Error>)
      requires Valid() && held == AfterSemundo(from, s) && from.ioContext.None?
      requires Keeps(from, current) && from.fs.Some? && from.sighand.Some?
      modifies this`refs, this`held, this`log
      ensures Later(old(log), log)
      ensures Valid()
      ensures fail == ImageRefusal(current, f, e)
      ensures fail.None? ==> AllFrom(p, from, current.ioContext, f, e)
      ensures held == if fail.Some? then old(held) else Owned(p, f, e, s)
      ensures SameStart(p, from)
    {
      p, fail := CopyFiles(f, e, from);
      if fail.Some? { return; }
      p, fail := CopyFsOn(current, p, f, e, s);
      if fail.None? { return; }
      PutSome(Files, p.files, AfterSemundo(p, s));
    }

    /** The fs struct, and the label bad_fork_cleanup_fs. */
    method CopyFsOn(current: Task, from: Task, f: Flags, e: Env, ghost s: Stack) returns (p: Task, fail: Option<Error>)
      requires Valid() && held == PushSome(Files, from.files, AfterSemundo(from, s)) && from.ioContext.None?
      requires from.mm == current.mm && from.fs.Some? && from.sighand.Some?
      modifies this`refs, this`held, this`log
      ensures Later(old(log), log)
      ensures Valid()
      ensures fail == FsRefusal(current, f, e)
      ensures fail.None? ==>
        && p.fs == (if f.fs then from.fs else Some(e.fs))
        && SignalsFrom(p, from, f, e) && TailFrom(p, current.ioContext, f, e)
      ensures held == if fail.Some? then old(held) else Owned(p, f, e, s)
      ensures SameStart(p, from) && p.files == from.files
    {
      p, fail := CopyFsStruct(f, e, from);
      if fail.Some? { return; }
      p, fail := CopySignals(current, p, f, e, s);
      if fail.None? { return; }
      PutSome(Fs, p.fs, PushSome(Files, p.files, AfterSemundo(p, s)));
    }

    /** Signal handlers, and the label bad_fork_cleanup_sighand. */
    method CopySignals(current: Task, from: Task, f: Flags, e: Env, ghost s: Stack)
        returns (p: Task, fail: Option<Error>)
      requires Valid() && held == AfterFs(from, s) && from.ioContext.None? && from.mm == current.mm
        && from.sighand.Some?
      modifies this`refs, this`held, this`log
      ensures Later(old(log), log)
      ensures Valid()
      ensures fail == SignalsRefusal(current, f, e)
      ensures fail.None? ==> SignalsFrom(p, from, f, e) && TailFrom(p, current.ioContext, f, e)
      ensures held == if fail.Some? then old(held) else Owned(p, f, e, s)
      ensures SameStart(p, from) && p.files == from.files && p.fs == from.fs
    {
      p, fail := CopySighand(f, e, from);
      if fail.Some? { return; }
      p, fail := CopySignalOn(current, p, f, e, s);
      if fail.None? { return; }
      PutSome(Sighand, p.sighand, AfterFs(p, s));
    }

    /** The signal struct, and the label bad_fork_cleanup_signal. */
    method CopySignalOn(current: Task, from: Task, f: Flags, e: Env, ghost s: Stack)
        returns (p: Task, fail: Option<Error>)
      requires Valid() && held == PushSome(Sighand, from.sighand, AfterFs(from, s)) && from.ioContext.None?
        && from.mm == current.mm
      modifies this`refs, this`held, this`log
      ensures Later(old(log), log)
      ensures Valid()
      ensures fail == SignalRefusal(current, f, e)
      ensures fail.None? ==>
        && p.signal == (if f.thread then from.signal else Some(e.signal)) && p.mm == NewMm(from, f, e)
        && TailFrom(p, current.ioContext, f, e)
      ensures held == if fail.Some? then old(held) else Owned(p, f, e, s)
      ensures SameStart(p, from) && p.files == from.files && p.fs == from.fs && p.sighand == from.sighand
    {
      p, fail := CopySignal(f, e, from);
      if fail.Some? { return; }
      p, fail := CopyMmOn(current, p, f, e, s);
      if fail.None? { return; }
      if !f.thread { PutSome(Signal, p.signal, PushSome(Sighand, p.sighand, AfterFs(p, s))); }
    }

    /** The mm, and the label bad_fork_cleanup_mm. */
    method CopyMmOn(current: Task, from: Task, f: Flags, e: Env, ghost s: Stack) returns (p: Task, fail: Option<Error>)
      requires Valid() && held == AfterSignal(from, f, s) && from.ioContext.None? && from.mm == current.mm
      modifies this`refs, this`held, this`log
      ensures Later(old(log), log)
      ensures Valid()
      ensures fail == MmRefusal(current, f, e)
      ensures fail.None? ==> p.mm == NewMm(from, f, e) && TailFrom(p, current.ioContext, f, e)
      ensures held == if fail.Some? then old(held) else Owned(p, f, e, s)
      ensures p == from.(mm := p.mm, nsproxy := p.nsproxy, ioContext := p.ioContext)
    {
      p, fail := CopyMm(f, e, from);
      if fail.Some? { return; }
      p, fail := CopyTail(current, p, f, e, s);
      if fail.None? { return; }
      PutSome(Mm, p.mm, AfterSignal(p, f, s));
    }

    /** Namespaces and the I/O context, with their labels. */
    method CopyTail(current: Task, from: Task, f: Flags, e: Env, ghost s: Stack) returns (p: Task, fail: Option<Error>)
      requires Valid() && held == PushSome(Mm, from.mm, AfterSignal(from, f, s)) && from.ioContext.None?
      modifies this`refs, this`held, this`log
      ensures Later(old(log), log)
      ensures Valid()
      ensures fail == TailRefusal(current, f, e)
      ensures held == if fail.Some? then old(held) else Owned(p, f, e, s)
      ensures p == from.(nsproxy := p.nsproxy, ioContext := p.ioContext)
      ensures fail.None? ==> TailFrom(p, current.ioContext, f, e)
    {
      p := from;
      fail := e.fails(CopyNamespaces);
      TryGet(Namespaces, e.nsproxy, fail);
      if fail.Some? { return; }
      p := p.(nsproxy := e.nsproxy);
      label bad_fork_cleanup_namespaces: {
        p, fail := CopyIo(f, e, p, current.ioContext);
        if fail.Some? { break bad_fork_cleanup_namespaces; }
        fail := CopyThreadOn(current, p, f, e, s);
        if fail.None? { return; }
        PutSome(IoContext, p.ioContext, AfterNamespaces(p, f, s));
      }
      Put(Namespaces, p.nsproxy);
    }

    /** copy_thread, and the label bad_fork_cleanup_thread. */
    method CopyThreadOn(ghost current: Task, p: Task, f: Flags, e: Env, ghost s: Stack) returns (fail: Option<Error>)
      requires Valid() && held == PushSome(IoContext, p.ioContext, AfterNamespaces(p, f, s))
      modifies this`refs, this`held, this`log
      ensures Later(old(log), log)
      ensures Valid()
      ensures fail == ThreadRefusal(current, f, e)
      ensures held == if fail.Some? then old(held) else Owned(p, f, e, s)
    {
      fail := e.fails(CopyThread);
      TryGet(ThreadState, 0, fail);
      if fail.Some? { return; }
      fail := CopyPid(current, f, e);
      if fail.Some? { Put(ThreadState, 0); }
    }

    /** alloc_pid, and the label bad_fork_free_pid. */
    method CopyPid(ghost current: Task, f: Flags, e: Env) returns (fail: Option<Error>)
      requires Valid()
      modifies this`refs, this`held, this`log
      ensures Later(old(log), log)
      ensures Valid() && held == if fail.Some? then old(held) else AfterChecks(f, WithPid(e, old(held)))
      ensures fail == PidRefusal(current, f, e)
    {
      if !e.initPid {
        fail := e.fails(AllocPid);
        TryGet(PidNumber, 0, fail);
        if fail.Some? { return; }
      }
      fail := CopyPidfd(current, f, e);
      if fail.None? { return; }
      if !e.initPid { Put(PidNumber, 0); }
    }

    /** The pidfd, put at the label bad_fork_put_pidfd. */
    method CopyPidfd(ghost current: Task, f: Flags, e: Env) returns (fail: Option<Error>)
      requires Valid()
      modifies this`refs, this`held, this`log
      ensures Later(old(log), log)
      ensures Valid() && held == if fail.Some? then old(held) else AfterChecks(f, old(held))
      ensures fail == PidfdRefusal(current, f, e)
    {
      fail := None;
      if !f.pidfd {
        fail := LastChecks(e);
        return;
      }
      fail := MakePidfd(e);
      if fail.Some? { return; }
      label bad_fork_put_pidfd: {
        fail := e.fails(PutUser);
        if fail.Some? { break bad_fork_put_pidfd; }
        fail := LastChecks(e);
        if fail.None? { return; }
      }
      Put(PidRef, 0);
      Put(PidFile, 0);
      Put(PidFd, 0);
    }

    /** A descriptor, a file and a reference to the pid; without a file the descriptor goes back. */
    method MakePidfd(e: Env) returns (fail: Option<Error>)
      requires Valid()
      modifies this`refs, this`held, this`log
      ensures Later(old(log), log)
      ensures Valid() && held == if fail.Some? then old(held) else WithPidfd(old(held))
      ensures fail == Or(Says(e, true, GetUnusedFd), Says(e, true, GetFile))
    {
      fail := e.fails(GetUnusedFd);
      TryGet(PidFd, 0, fail);
      if fail.Some? { return; }
      fail := e.fails(GetFile);
      TryGet(PidFile, 0, fail);
      if fail.Some? { Put(PidFd, 0); return; }
      Get(PidRef, 0);
    }

    /** The cgroup permission, dropped again at the label bad_fork_cancel_cgroup. */
    method LastChecks(e: Env) returns (fail: Option<Error>)
      requires Valid()
      modifies this`refs, this`held, this`log
      ensures Later(old(log), log)
      ensures Valid() && held == if fail.Some? then old(held) else PushNew(CgroupFork, 0, old(held))
      ensures fail == LastRefusal(e)
    {
      fail := e.fails(CgroupCanFork);
      TryGet(CgroupFork, 0, fail);
      if fail.Some? { return; }
      fail := CheckLocked(e);
      if fail.Some? { Put(CgroupFork, 0); }
    }

    /** The two checks under tasklist_lock. */
    method CheckLocked(e: Env) returns (fail: Option<Error>)
      ensures fail == LockedRefusal(e)
    {
      if e.fails(NamespaceDying).Some? { return Some(ENOMEM); }
      if e.fails(FatalSignal).Some? { return Some(EINTR); }
      return None;
    }
  }
}
