// The fencing protocol of one operator process against the API server, as a state
// machine at API-call granularity: internal/controller/fenceagentsremediation_controller.go
// and pkg/cli/cliexecuter.go interleaved with everything else in the cluster.
module Protocol {
  import opened Basics
  import opened Conditions
  import opened Taints
  import opened Executions

  datatype Strategy = ResourceDeletion | Default | OutOfService | Unsupported

  // One stored version of the FenceAgentsRemediation object.
  datatype CR = CR(
    uid: Uid,
    deleting: bool,
    timedOut: bool,
    finalizer: bool,
    strategy: Strategy,
    retries: int,
    status: Status)

  datatype Node = Node(ver: nat, taints: seq<Taint>)

  // The four node writes of the reconciler.
  datatype Job = TaintNode | TaintOutOfService | UntaintOutOfService | UntaintNode

  datatype After = ForDeletion(found: bool) | ForTimeout | ForCompletion

  // Where the reconciler is.  ver is the version its local copy of the object was
  // read at (or written as); the copy itself is hist[ver], since versions never change.
  datatype Pc =
    | Idle
    | GetNode(ver: nat)
    | Cancel(ver: nat, after: After)
    | AddFinalizer(ver: nat)
    | ReadNode(ver: nat, job: Job)
    | WriteNode(ver: nat, job: Job, copy: Node)
    | CheckRunning(ver: nat)
    | Build(ver: nat)
    | Launch(ver: nat)
    | EvictPods(ver: nat)
    | DropFinalizer(ver: nat)
    | Finish(ver: nat, why: Option<Reason>)

  datatype Event =
    | FenceStarted(uid: Uid)
    | CommandRun(uid: Uid)
    | FenceOk(uid: Uid)
    | PodsDeleted(uid: Uid)
    | OutOfServiceAdded(uid: Uid)
    | SucceededStored(uid: Uid)
    | Crashed

  // hist holds every version the API server ever stored under the object's name
  // (None: no object); the last one is current and its index is its resource version.
  // cache is the version the informer shows to both Get and List.  A uid is the
  // version that created the incarnation.  launched is the set of uids for which
  // this process has started a routine.
  datatype State = State(
    hist: seq<Option<CR>>,
    cache: nat,
    node: Option<Node>,
    clock: nat,
    pc: Pc,
    exec: Exec,
    launched: set<Uid>,
    log: seq<Event>)
  {
    predicate WellFormed() {
      && 0 < |hist| && cache < |hist|
      && (!pc.Idle? ==> pc.ver < |hist| && hist[pc.ver].Some?)
      && (forall r :: 0 <= r < |exec.gos| && exec.gos[r].pc.Store? ==>
            exec.gos[r].pc.ver < |hist| && hist[exec.gos[r].pc.ver].Some?)
    }
    function Last(): nat requires 0 < |hist| { |hist| - 1 }
    function Current(): Option<CR> requires 0 < |hist| { hist[|hist| - 1] }
    function Seen(): Option<CR> requires cache < |hist| { hist[cache] }
  }

  predicate Carries(node: Option<Node>, t: Taint) {
    node.Some? && Has(node.value.taints, t)
  }
  predicate Tainted(node: Option<Node>) { Carries(node, RemediationTaint()) }
  predicate OutOfServiceTainted(node: Option<Node>) { Carries(node, OutOfServiceTaint(0)) }

  ghost predicate Init(s: State) {
    && s.hist == [None] && s.cache == 0
    && !Tainted(s.node) && !OutOfServiceTainted(s.node)
    && (s.node.Some? ==> s.node.value.ver < s.clock)
    && s.pc == Idle && s.exec == NOTHING_RUNNING && s.launched == {} && s.log == []
  }

  // ---------------------------------------------------------------- writes

  function Put(s: State, v: Option<CR>): State {
    s.(hist := s.hist + [v])
  }

  function Noted(s: State, e: Event): State {
    s.(log := s.log + [e])
  }

  function PutStatus(s: State, prev: CR, st: Status): State {
    if st == prev.status then s
    else
      var t := Put(s, Some(prev.(status := st)));
      if st.Is(Succeeded, True) && !prev.status.Is(Succeeded, True) then Noted(t, SucceededStored(prev.uid)) else t
  }

  function SetNode(s: State, taints: seq<Taint>): State {
    s.(node := Some(Node(s.clock, taints)), clock := s.clock + 1)
  }

  // ---------------------------------------------------------------- the environment

  datatype Disturbance =
    | Create(strategy: Strategy, retries: int)
    | Touch(retries: int)
    | Annotate
    | Delete
    | NodeGone
    | NodeBack(taints: seq<Taint>)
    | NodeEdit(taints: seq<Taint>)
    | Observe(ver: nat)
    | Crash

  // The operator process dies and a new one starts with a fresh cache.
  function Restarted(s: State): State
    requires 0 < |s.hist|
  {
    Noted(s.(cache := s.Last(), pc := Idle, exec := NOTHING_RUNNING, launched := {}), Crashed)
  }

  predicate EnvironmentEnabled(s: State, a: Disturbance)
    requires s.WellFormed()
  {
    match a
    case Create(_, _) => s.Current().None?
    case Touch(_) | Annotate | Delete => s.Current().Some?
    case NodeGone => s.node.Some?
    // Only the operator adds its two taints; anyone may take them away.
    case NodeBack(ts) => s.node.None? && !Has(ts, RemediationTaint()) && !Has(ts, OutOfServiceTaint(0))
    case NodeEdit(ts) =>
      s.node.Some? &&
      (Has(ts, RemediationTaint()) ==> Has(s.node.value.taints, RemediationTaint())) &&
      (Has(ts, OutOfServiceTaint(0)) ==> Has(s.node.value.taints, OutOfServiceTaint(0)))
    case Observe(v) => s.cache <= v < |s.hist|
    case Crash => true
  }

  function EnvironmentStep(s: State, a: Disturbance): State
    requires s.WellFormed() && EnvironmentEnabled(s, a)
  {
    match a
    case Create(strategy, retries) =>
      Put(s, Some(CR(|s.hist|, false, false, false, strategy, retries, EMPTY)))
    case Touch(retries) => Put(s, Some(s.Current().value.(retries := retries)))
    case Annotate => Put(s, Some(s.Current().value.(timedOut := true)))
    case Delete =>
      Put(s, if s.Current().value.finalizer then Some(s.Current().value.(deleting := true)) else None)
    case NodeGone => s.(node := None)
    case NodeBack(ts) => SetNode(s, ts)
    case NodeEdit(ts) => SetNode(s, ts)
    case Observe(v) => s.(cache := v)
    case Crash => Restarted(s)
  }

  // ---------------------------------------------------------------- the reconciler

  // Which API call follows the node lookup: deletion first, then the NHC timeout,
  // then the missing node, then the finalizer.
  function AfterNode(cr: CR, ver: nat, found: bool): Pc {
    if cr.deleting then
      // FindStatusCondition returns nil for an absent condition and its Status is read.
      if !cr.status.Is(Succeeded, True) && !cr.status.Complete() then Finish(ver, None)
      else Cancel(ver, ForDeletion(found))
    else if cr.timedOut then Cancel(ver, ForTimeout)
    else if !found then Finish(ver, Some(NodeNotFound))
    else if !cr.finalizer then AddFinalizer(ver)
    else ReadNode(ver, TaintNode)
  }

  function AfterCancel(cr: CR, ver: nat, after: After): Pc {
    match after
    case ForDeletion(found) =>
      if !found then DropFinalizer(ver)
      else if cr.strategy == OutOfService then ReadNode(ver, UntaintOutOfService)
      else ReadNode(ver, UntaintNode)
    case ForTimeout => Finish(ver, Some(InterruptedByNHC))
    case ForCompletion => Finish(ver, Some(FinishedSuccessfully))
  }

  // What the reconciler does once a node job is settled without an error.
  function AfterJob(cr: CR, ver: nat, job: Job): Pc {
    match job
    case TaintNode =>
      if cr.status.Is(Processing, True) && !cr.status.Is(FenceAgentActionSucceeded, True) then CheckRunning(ver)
      else if cr.status.Is(FenceAgentActionSucceeded, True) && !cr.status.Is(Succeeded, True) then
        match cr.strategy
        case ResourceDeletion | Default => EvictPods(ver)
        case OutOfService => ReadNode(ver, TaintOutOfService)
        case Unsupported => Finish(ver, None)
      else Finish(ver, None)
    case TaintOutOfService => Cancel(ver, ForCompletion)
    case UntaintOutOfService => ReadNode(ver, UntaintNode)
    case UntaintNode => DropFinalizer(ver)
  }

  function JobTaint(job: Job): Taint {
    match job
    case TaintNode | UntaintNode => RemediationTaint()
    case TaintOutOfService | UntaintOutOfService => OutOfServiceTaint(0)
  }

  predicate Adds(job: Job) { job.TaintNode? || job.TaintOutOfService? }

  // The list a job writes, given the list it read.
  function JobResult(job: Job, ts: seq<Taint>, now: nat): seq<Taint> {
    if Adds(job) then Appended(ts, JobTaint(job), now) else Without(ts, JobTaint(job))
  }

  // AppendTaint and RemoveTaint return before writing when there is nothing to do.
  predicate JobIdle(job: Job, ts: seq<Taint>) {
    Has(ts, JobTaint(job)) == Adds(job)
  }

  function GetStep(s: State, fault: bool): State
    requires s.WellFormed() && s.pc.Idle?
  {
    if fault || s.Seen().None? then s else s.(pc := GetNode(s.cache))
  }

  function WriteNodeStep(s: State, fault: bool): State
    requires s.WellFormed() && s.pc.WriteNode?
  {
    var cr := s.hist[s.pc.ver].value;
    if fault then s.(pc := Finish(s.pc.ver, None))
    else if s.node == None then
      // NotFound: an error to AppendTaint, accepted by handleFARDeletion.
      s.(pc := if Adds(s.pc.job) then Finish(s.pc.ver, None) else AfterJob(cr, s.pc.ver, s.pc.job))
    else if s.node.value.ver != s.pc.copy.ver then s.(pc := Finish(s.pc.ver, None))
    else
      var t := SetNode(s, JobResult(s.pc.job, s.pc.copy.taints, s.clock)).(pc := AfterJob(cr, s.pc.ver, s.pc.job));
      if s.pc.job.TaintOutOfService? then Noted(t, OutOfServiceAdded(cr.uid)) else t
  }

  function AddFinalizerStep(s: State, fault: bool): State
    requires s.WellFormed() && s.pc.AddFinalizer?
  {
    if fault || s.pc.ver != s.Last() then s.(pc := Finish(s.pc.ver, None))
    else Put(s, Some(s.hist[s.pc.ver].value.(finalizer := true))).(pc := Finish(|s.hist|, Some(Started)))
  }

  function DropFinalizerStep(s: State, fault: bool): State
    requires s.WellFormed() && s.pc.DropFinalizer?
  {
    // The local copy has lost its finalizer and is deleting, so the deferred status
    // update is skipped; an object without finalizers goes away at once.
    if fault || s.pc.ver != s.Last() then s.(pc := Idle)
    else Put(s, None).(pc := Idle)
  }

  // The deferred status update.
  function FinishStep(s: State, fault: bool): State
    requires s.WellFormed() && s.pc.Finish?
  {
    var cr := s.hist[s.pc.ver].value;
    if (cr.deleting && !cr.finalizer) || fault || s.pc.ver != s.Last() || s.pc.why.None? then s.(pc := Idle)
    else PutStatus(s.(pc := Idle), cr, Updated(s.pc.why.value, cr.status, |s.hist|))
  }

  function ReconcileStep(s: State, fault: bool): State
    requires s.WellFormed() && !s.pc.Idle?
  {
    var ver := s.pc.ver;
    var cr := s.hist[ver].value;
    match s.pc
    case GetNode(_) =>
      s.(pc := if fault then Finish(ver, None) else AfterNode(cr, ver, s.node.Some?))
    case Cancel(_, after) =>
      s.(exec := Removed(s.exec, cr.uid), pc := AfterCancel(cr, ver, after))
    case AddFinalizer(_) => AddFinalizerStep(s, fault)
    case ReadNode(_, job) =>
      s.(pc := if fault then Finish(ver, None)
               else if s.node.None? || JobIdle(job, s.node.value.taints) then AfterJob(cr, ver, job)
               else WriteNode(ver, job, s.node.value))
    case WriteNode(_, _, _) => WriteNodeStep(s, fault)
    case CheckRunning(_) => s.(pc := if cr.uid in s.exec.routines then Finish(ver, None) else Build(ver))
    case Build(_) => s.(pc := if fault then Finish(ver, None) else Launch(ver))
    case Launch(_) =>
      var t := s.(exec := Launched(s.exec, cr.uid, cr.retries), pc := Finish(ver, None));
      if cr.uid in s.exec.routines then t
      else Noted(t.(launched := s.launched + {cr.uid}), FenceStarted(cr.uid))
    case EvictPods(_) =>
      // Some pods may be gone even when the call fails.
      Noted(s.(pc := if fault then Finish(ver, None) else Cancel(ver, ForCompletion)), PodsDeleted(cr.uid))
    case DropFinalizer(_) => DropFinalizerStep(s, fault)
    case Finish(_, _) => FinishStep(s, fault)
  }

  // ---------------------------------------------------------------- the fence goroutines

  datatype GoAction =
    | Check
    | Run(outcome: Outcome)
    | Wake(byCancel: bool)
    | List(fault: bool, alone: bool)
    | Write(fault: bool)

  predicate GoEnabled(s: State, r: nat, a: GoAction)
    requires s.WellFormed()
  {
    r < |s.exec.gos| &&
    var g := s.exec.gos[r];
    match a
    case Check => g.pc.Attempt? || g.pc.Record?
    case Run(o) => g.pc.Running? && (o.Killed? ==> g.cancelled)
    case Wake(byCancel) => (g.pc.Pause? || g.pc.RecordPause?) && (byCancel ==> g.cancelled)
    case List(_, _) => g.pc.Lookup?
    case Write(_) => g.pc.Store?
  }

  // The head of a backoff loop.  With no steps left it returns a timeout error
  // without looking at the context; for the command loop that leaves a nil error.
  function Checked(g: Go): GoPc
    requires g.pc.Attempt? || g.pc.Record?
  {
    if g.pc.Attempt? then
      if g.pc.left <= 0 then Record(STATUS_STEPS, Won) else if g.cancelled then Ended else Running(g.pc.left)
    else if g.pc.tries <= 0 || g.cancelled then Ended
    else Lookup(g.pc.tries, g.pc.verdict)
  }

  // A failed attempt is retried while more than one step is left.
  function Ran(n: int, o: Outcome): GoPc {
    match o
    case Ok => Record(STATUS_STEPS, Won)
    case TimedOut => Record(STATUS_STEPS, Overran)
    case Killed => Ended
    case Failed => if n <= 1 then Record(STATUS_STEPS, Lost) else Pause(n - 1)
  }

  function Woken(pc: GoPc, byCancel: bool): GoPc
    requires pc.Pause? || pc.RecordPause?
  {
    if byCancel then Ended
    else if pc.Pause? then Attempt(pc.left)
    else Record(pc.tries, pc.verdict)
  }

  // Listing returns (nil, nil) when the list is empty, and the nil object is then
  // dereferenced: the process dies.  alone says that no other remediation exists.
  function ListStep(s: State, r: nat, fault: bool, alone: bool): State
    requires s.WellFormed() && r < |s.exec.gos| && s.exec.gos[r].pc.Lookup?
  {
    var g := s.exec.gos[r];
    if fault then s.(exec := Stepped(s.exec, r, Ended))
    else match s.Seen()
      case None => if alone then Restarted(s) else s.(exec := Stepped(s.exec, r, Ended))
      case Some(cr) =>
        if cr.uid != g.uid then s.(exec := Stepped(s.exec, r, Ended))
        else s.(exec := Stepped(s.exec, r, Store(g.pc.tries, g.pc.verdict, s.cache)))
  }

  function WriteStep(s: State, r: nat, fault: bool): State
    requires s.WellFormed() && r < |s.exec.gos| && s.exec.gos[r].pc.Store?
  {
    var g := s.exec.gos[r];
    var cr := s.hist[g.pc.ver].value;
    var reason := ReasonFor(g.pc.verdict);
    if Panics(reason, cr.status) then Restarted(s)
    else if g.cancelled || fault || s.Current().None? then s.(exec := Stepped(s.exec, r, Ended))
    else if g.pc.ver == s.Last() then
      PutStatus(s.(exec := Stepped(s.exec, r, Ended)), cr, Updated(reason, cr.status, |s.hist|))
    else s.(exec := Stepped(s.exec, r,
                      if g.pc.tries <= 1 then Ended else RecordPause(g.pc.tries - 1, g.pc.verdict)))
  }

  function GoStep(s: State, r: nat, a: GoAction): State
    requires s.WellFormed() && GoEnabled(s, r, a)
  {
    var g := s.exec.gos[r];
    match a
    case Check =>
      var t := s.(exec := Stepped(s.exec, r, Checked(g)));
      if Checked(g).Running? then Noted(t, CommandRun(g.uid)) else t
    case Run(o) =>
      var t := s.(exec := Stepped(s.exec, r, Ran(g.pc.left, o)));
      if o.Ok? then Noted(t, FenceOk(g.uid)) else t
    case Wake(byCancel) => s.(exec := Stepped(s.exec, r, Woken(g.pc, byCancel)))
    case List(fault, alone) => ListStep(s, r, fault, alone)
    case Write(fault) => WriteStep(s, r, fault)
  }

  // ---------------------------------------------------------------- runs

  datatype Action =
    | Disturb(what: Disturbance)
    | Get(fault: bool)
    | Reconcile(fault: bool)
    | Routine(r: nat, act: GoAction)

  predicate Enabled(s: State, a: Action)
    requires s.WellFormed()
  {
    match a
    case Disturb(d) => EnvironmentEnabled(s, d)
    case Get(_) => s.pc.Idle?
    case Reconcile(_) => !s.pc.Idle?
    case Routine(r, g) => GoEnabled(s, r, g)
  }

  function Step(s: State, a: Action): State
    requires s.WellFormed() && Enabled(s, a)
  {
    match a
    case Disturb(d) => EnvironmentStep(s, d)
    case Get(fault) => GetStep(s, fault)
    case Reconcile(fault) => ReconcileStep(s, fault)
    case Routine(r, g) => GoStep(s, r, g)
  }
}
