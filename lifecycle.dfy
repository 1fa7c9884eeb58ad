/**
 * The cheque lifecycle as the status dialog offers it
 * (frontend/components/cheques/update-status-dialog.tsx): RECEIVED goes to
 * DEPOSITED, DEPOSITED to CLEARED or BOUNCED, and CLEARED and BOUNCED are
 * final. This is the only place the rule exists; the backend's status
 * handler accepts any status (see ChequeController.StatusApplied).
 */
module Lifecycle {
  import opened Wrappers
  import opened Domain

  /** `getStatusOptions`: the statuses the dialog offers from `s`. */
  function StatusOptions(s: ChequeStatus): (r: seq<ChequeStatus>)
    ensures s !in r && Received !in r
    ensures forall i, j :: 0 <= i < j < |r| ==> r[i] != r[j]
  {
    match s
    case Received => [Deposited]
    case Deposited => [Cleared, Bounced]
    case Cleared => []
    case Bounced => []
  }

  /** The dialog refuses to update a cheque whose option list is empty. */
  predicate IsFinal(s: ChequeStatus) {
    StatusOptions(s) == []
  }

  /** One legal transition. */
  predicate Step(s: ChequeStatus, t: ChequeStatus) {
    t in StatusOptions(s)
  }

  /** `getNextStatus`: the status preselected in the dialog. */
  function NextStatus(s: ChequeStatus): (r: ChequeStatus)
    ensures !IsFinal(s) ==> Step(s, r)
    ensures IsFinal(s) ==> r == s
  {
    match s
    case Received => Deposited
    case Deposited => Cleared
    case _ => s
  }

  lemma FinalStates(s: ChequeStatus)
    ensures IsFinal(s) <==> s == Cleared || s == Bounced
  {
  }

  /** RECEIVED cannot skip DEPOSITED. */
  lemma NoSkipFromReceived()
    ensures !Step(Received, Cleared) && !Step(Received, Bounced)
  {
  }

  /** A walk along legal transitions. */
  predicate IsPath(p: seq<ChequeStatus>) {
    forall i :: 0 <= i < |p| - 1 ==> Step(p[i], p[i + 1])
  }

  /** The most transitions still possible from a status. */
  function Rank(s: ChequeStatus): nat {
    match s
    case Received => 2
    case Deposited => 1
    case _ => 0
  }

  lemma StepLowersRank(s: ChequeStatus, t: ChequeStatus)
    requires Step(s, t)
    ensures Rank(t) < Rank(s)
  {
  }

  /** Every walk strictly lowers the rank, so no status is ever revisited. */
  lemma {:induction false} PathLowersRank(p: seq<ChequeStatus>)
    requires IsPath(p) && |p| >= 2
    ensures Rank(p[|p| - 1]) < Rank(p[0])
  {
    StepLowersRank(p[0], p[1]);
    if |p| > 2 {
      assert IsPath(p[1..]);
      PathLowersRank(p[1..]);
    }
  }

  /** The transition relation is acyclic. */
  lemma Acyclic(p: seq<ChequeStatus>)
    requires IsPath(p) && |p| >= 2
    ensures p[0] != p[|p| - 1]
  {
    PathLowersRank(p);
  }

  /** A walk from `p[0]` takes at most `Rank(p[0])` steps: two from RECEIVED. */
  lemma {:induction false} PathLength(p: seq<ChequeStatus>)
    requires IsPath(p) && |p| >= 1
    ensures |p| - 1 <= Rank(p[0])
  {
    if |p| >= 2 {
      StepLowersRank(p[0], p[1]);
      assert IsPath(p[1..]);
      PathLength(p[1..]);
    }
  }

  /** A walk that cannot be extended ends in a final status. */
  lemma MaximalPathEndsFinal(p: seq<ChequeStatus>)
    requires IsPath(p) && |p| >= 1
    requires forall t :: !IsPath(p + [t])
    ensures IsFinal(p[|p| - 1])
  {
    var last := p[|p| - 1];
    if !IsFinal(last) {
      var t := NextStatus(last);
      assert IsPath(p + [t]);
    }
  }

  /** Every status is reachable from RECEIVED. */
  lemma ReachableFromReceived(t: ChequeStatus)
    ensures exists p :: IsPath(p) && |p| >= 1 && p[0] == Received && p[|p| - 1] == t
  {
    var p := match t
      case Received => [Received]
      case Deposited => [Received, Deposited]
      case Cleared => [Received, Deposited, Cleared]
      case Bounced => [Received, Deposited, Bounced];
    assert IsPath(p) && p[0] == Received && p[|p| - 1] == t;
  }

  /** The date fields of the dialog form (yyyy-mm-dd strings) and the reason text. */
  datatype StatusForm = StatusForm(
    depositDate: string, clearedDate: string, bouncedDate: string, bounceReason: string)

  /** The body sent to the status endpoint; a key not sent is None. */
  datatype StatusPayload = StatusPayload(
    status: ChequeStatus,
    depositDate: Option<string>,
    clearedDate: Option<string>,
    bouncedDate: Option<string>,
    bounceReason: Option<string>)

  /** `onSubmit`: starts from `{ status }` and adds the fields of the chosen status. */
  method BuildStatusPayload(newStatus: ChequeStatus, data: StatusForm) returns (p: StatusPayload)
    ensures p.status == newStatus
    ensures p.depositDate.Some? <==> newStatus == Deposited
    ensures p.clearedDate.Some? <==> newStatus == Cleared
    ensures p.bouncedDate.Some? <==> newStatus == Bounced
    ensures p.bounceReason.Some? <==> newStatus == Bounced
    ensures p.depositDate.Some? ==> p.depositDate.value == data.depositDate
    ensures p.clearedDate.Some? ==> p.clearedDate.value == data.clearedDate
    ensures p.bouncedDate.Some? ==> p.bouncedDate.value == data.bouncedDate
    ensures p.bounceReason.Some? ==> p.bounceReason.value == data.bounceReason
  {
    p := StatusPayload(newStatus, None, None, None, None);
    if newStatus == Deposited {
      p := p.(depositDate := Some(data.depositDate));
    } else if newStatus == Cleared {
      p := p.(clearedDate := Some(data.clearedDate));
    } else if newStatus == Bounced {
      p := p.(bouncedDate := Some(data.bouncedDate));
      p := p.(bounceReason := Some(data.bounceReason));
    }
  }
}
