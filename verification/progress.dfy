/**
 * The order progress bar: a constant list of six stages, the position of
 * the order's status in it, the bar's fill percentage, and which stage
 * markers are drawn active or current.
 */
module OrderProgress {
  import opened Schema

  datatype Icon = Clock | ShoppingCart | Truck | Check

  /** One stage of the bar: the status it stands for, its caption and its icon. */
  datatype Stage = Stage(status: Status, caption: string, icon: Icon)

  /** The stages, left to right. */
  const Stages: seq<Stage> := [
    Stage(Pending, "Pending", Clock),
    Stage(Accepted, "Accepted", ShoppingCart),
    Stage(Shopping, "Shopping", ShoppingCart),
    Stage(Delivering, "Delivering", Truck),
    Stage(Completed, "Delivered", Check),
    Stage(Paid, "Paid", Check)
  ]

  /** The stage list spells the status enum, value for value and in the same order. */
  lemma StagesFollowEnum()
    ensures |Stages| == |StatusNames| == 6
    ensures forall i :: 0 <= i < |Stages| ==> StatusName(Stages[i].status) == StatusNames[i]
  {
  }

  /**
   * `findIndex` over `stages`, starting at `from`: the first position whose
   * status is the order's, or -1. The source compares status strings; for
   * canonical statuses that is comparing the statuses themselves
   * (`StatusNameInjective`).
   */
  function FindStage(stages: seq<Stage>, status: Status, from: nat): (r: int)
    requires from <= |stages|
    decreases |stages| - from
    ensures r == -1 || from <= r < |stages|
    ensures r == -1 <==> forall i :: from <= i < |stages| ==> stages[i].status != status
    ensures r != -1 ==> stages[r].status == status
    ensures r != -1 ==> forall i :: from <= i < r ==> stages[i].status != status
  {
    if from == |stages| then -1
    else if stages[from].status == status then from
    else FindStage(stages, status, from + 1)
  }

  /** `currentStageIndex`: where the order's status sits on the bar, or -1. */
  function StageIndex(status: Status): (r: int)
    ensures -1 <= r < |Stages|
  {
    FindStage(Stages, status, 0)
  }

  /** Where each status of the enum sits in the stage list. */
  function StageIndexOf(status: Status): (i: nat)
    requires InStatusEnum(status)
    ensures i < |Stages| && Stages[i].status == status
  {
    match status
    case Pending => 0
    case Accepted => 1
    case Shopping => 2
    case Delivering => 3
    case Completed => 4
    case Paid => 5
  }

  /** Every stage stands for a status of the enum, each at its own position. */
  lemma StagesAreEnum()
    ensures forall i :: 0 <= i < |Stages| ==> InStatusEnum(Stages[i].status) && StageIndexOf(Stages[i].status) == i
  {
  }

  /** A status of the enum is found at its own position; any other is not found. */
  lemma StageIndexValues(status: Status)
    ensures InStatusEnum(status) ==> StageIndex(status) == StageIndexOf(status)
    ensures !InStatusEnum(status) <==> StageIndex(status) == -1
  {
    StagesAreEnum();
    if InStatusEnum(status) {
      assert Stages[StageIndexOf(status)].status == status;
      var r := StageIndex(status);
      assert StageIndexOf(Stages[r].status) == r;
    }
  }

  /** The bar's fill: (index + 1) / 6 * 100. */
  function Progress(status: Status): (p: real)
    ensures 0.0 <= p <= 100.0
    ensures p == 0.0 <==> StageIndex(status) == -1
  {
    ((StageIndex(status) + 1) as real / |Stages| as real) * 100.0
  }

  /** Paid fills the bar, an unknown status leaves it empty, and the fill grows strictly along the stages. */
  lemma ProgressAlongStages(s: Status, t: Status)
    ensures Progress(Paid) == 100.0
    ensures !InStatusEnum(s) ==> Progress(s) == 0.0
    ensures StageIndex(s) < StageIndex(t) ==> Progress(s) < Progress(t)
  {
    StageIndexValues(Paid);
    StageIndexValues(s);
    StageIndexValues(t);
  }

  /** Stage `i` is drawn active when it is at or before the current one. */
  predicate IsActive(i: int, status: Status) {
    i <= StageIndex(status)
  }

  /** Stage `i` is the current one (the pulsing marker). */
  predicate IsCurrent(i: int, status: Status) {
    i == StageIndex(status)
  }

  /** How one stage marker is drawn. */
  datatype StageView = StageView(stage: Stage, active: bool, current: bool)

  /** The row of markers under the bar, one per stage, in stage order. */
  function StageViews(status: Status): (r: seq<StageView>)
    ensures |r| == |Stages|
    ensures forall i :: 0 <= i < |r| ==> r[i].stage == Stages[i]
    ensures forall i, j :: 0 <= i <= j < |r| && r[j].active ==> r[i].active
    ensures forall i :: 0 <= i < |r| && r[i].current ==> r[i].active
    ensures forall i, j :: 0 <= i < |r| && 0 <= j < |r| && r[i].current && r[j].current ==> i == j
  {
    seq(|Stages|, i requires 0 <= i < |Stages| => StageView(Stages[i], IsActive(i, status), IsCurrent(i, status)))
  }

  /** Exactly one marker is current for a status of the enum, and none (nor any active) for another. */
  lemma OneCurrentStage(status: Status)
    ensures InStatusEnum(status) ==>
      var v := StageViews(status);
      0 <= StageIndex(status) && v[StageIndex(status)].current && v[StageIndex(status)].stage.status == status
    ensures !InStatusEnum(status) ==> forall i :: 0 <= i < |Stages| ==> !StageViews(status)[i].current && !StageViews(status)[i].active
  {
    StageIndexValues(status);
  }
}
