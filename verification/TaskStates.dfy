/** The task state machine: src/domain/state-machine/state-machine.ts. */
module TaskStates {
  import opened Prelude

  datatype TaskState =
    | Queued | Planning | Planned | Developing | DevCompleted | Accepting | Accepted | ReworkRequired
    | Integrating | Integrated | PublishPendingApproval | Publishing | Published
    | Cancelled | Failed | Blocked

  datatype Stage = Plan | Dev | Acceptance

  predicate CanTransition(from: TaskState, to: TaskState) {
    match from
    case Published | Cancelled | Failed => false
    case Blocked =>
      to in {Blocked, Planning, Developing, Accepting, Integrating, Integrated, Publishing, Cancelled, Failed}
    case _ =>
      to == from || to in {Blocked, Cancelled, Failed} || to in Successors(from)
  }

  /** Where work that is neither blocked nor abandoned goes next. */
  function Successors(from: TaskState): set<TaskState> {
    match from
    case Queued => {Planning}
    case Planning => {Planned, ReworkRequired}
    case Planned => {Developing}
    case Developing => {DevCompleted, ReworkRequired}
    case DevCompleted => {Accepting}
    case Accepting => {Accepted, ReworkRequired}
    case ReworkRequired => {Developing}
    case Accepted => {Integrating}
    case Integrating => {Integrated}
    case Integrated => {PublishPendingApproval, Publishing}
    case PublishPendingApproval => {Publishing}
    case Publishing => {Published}
    case _ => {}
  }

  /** The one stage a task in this state may be dispatched to, if any. */
  function DispatchStage(s: TaskState): Option<Stage> {
    match s
    case Queued => Some(Plan)
    case Planned | ReworkRequired => Some(Dev)
    case DevCompleted => Some(Acceptance)
    case _ => None
  }

  function ActiveState(s: Stage): TaskState {
    match s
    case Plan => Planning
    case Dev => Developing
    case Acceptance => Accepting
  }

  function Label(s: TaskState): string {
    match s
    case Queued => "queued"
    case Planning => "planning"
    case Planned => "planned"
    case Developing => "developing"
    case DevCompleted => "dev_completed"
    case Accepting => "accepting"
    case Accepted => "accepted"
    case ReworkRequired => "rework_required"
    case Integrating => "integrating"
    case Integrated => "integrated"
    case PublishPendingApproval => "publish_pending_approval"
    case Publishing => "publishing"
    case Published => "published"
    case Cancelled => "cancelled"
    case Failed => "failed"
    case Blocked => "blocked"
  }

  // ---------------------------------------------------------------- the same, read the other way

  /** Where a task may come from, state by state. */
  function Sources(to: TaskState): set<TaskState> {
    match to
    case Queued => {Queued}
    case Planning => {Queued, Planning, Blocked}
    case Planned => {Planning, Planned}
    case Developing => {Planned, ReworkRequired, Developing, Blocked}
    case DevCompleted => {Developing, DevCompleted}
    case Accepting => {DevCompleted, Accepting, Blocked}
    case Accepted => {Accepting, Accepted}
    case ReworkRequired => {Planning, Developing, Accepting, ReworkRequired}
    case Integrating => {Accepted, Integrating, Blocked}
    case Integrated => {Integrating, Integrated, Blocked}
    case PublishPendingApproval => {Integrated, PublishPendingApproval}
    case Publishing => {Integrated, PublishPendingApproval, Publishing, Blocked}
    case Published => {Publishing}
    case Cancelled | Failed | Blocked => OPEN
  }

  /** The states from which work can still be stopped. */
  const OPEN: set<TaskState> := {
    Queued, Planning, Planned, Developing, DevCompleted, Accepting, Accepted, ReworkRequired, Integrating, Integrated,
    PublishPendingApproval, Publishing, Blocked}

  lemma ComesFrom(from: TaskState, to: TaskState)
    ensures CanTransition(from, to) <==> from in Sources(to)
  {}

  /** A task may be dispatched to a stage from where its active state follows, unless it is in that state
      already or blocked. */
  lemma DispatchedFrom(from: TaskState, s: Stage)
    ensures DispatchStage(from) == Some(s) <==>
      CanTransition(from, ActiveState(s)) && from != ActiveState(s) && from != Blocked
    ensures ActiveState(s) in {Planning, Developing, Accepting}
  {}

  /** The state a label names. */
  function Named(name: string): Option<TaskState> {
    if name == "queued" then Some(Queued)
    else if name == "planning" then Some(Planning)
    else if name == "planned" then Some(Planned)
    else if name == "developing" then Some(Developing)
    else if name == "dev_completed" then Some(DevCompleted)
    else if name == "accepting" then Some(Accepting)
    else if name == "accepted" then Some(Accepted)
    else if name == "rework_required" then Some(ReworkRequired)
    else if name == "integrating" then Some(Integrating)
    else if name == "integrated" then Some(Integrated)
    else if name == "publish_pending_approval" then Some(PublishPendingApproval)
    else if name == "publishing" then Some(Publishing)
    else if name == "published" then Some(Published)
    else if name == "cancelled" then Some(Cancelled)
    else if name == "failed" then Some(Failed)
    else if name == "blocked" then Some(Blocked)
    else None
  }

  /** Every state is told by its label, so two states never share one. */
  lemma LabelsName(s: TaskState)
    ensures Named(Label(s)) == Some(s)
  {}
}
