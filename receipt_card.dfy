/** The viewer's split status on a receipt card
    (components/Receipt/ReceiptCard.tsx): derived from the card's props,
    it decides each participant row's paid mark, whether the join/pay button
    exists, what a click on it does and what it reads. The card's own state
    is one flag, whether the payment modal is open. */
module ReceiptCard {
  import opened Js

  datatype Verification = Orb | Phone

  datatype Participant = Participant(userId: string, username: string, verification: Verification, hasPaid: bool)

  /** The props the derivations read. An absent `isMessage` is `false`; an
      absent `connectedUsers` is its default, 1; an absent id is `None`. */
  datatype Props = Props(participants: seq<Participant>, isMessage: bool,
                         currentUserId: Option<string>, initiatorId: Option<string>,
                         connectedUsers: int)

  /** The index of the first participant at or after `from` whose `userId`
      is `id`. */
  function FindFrom(ps: seq<Participant>, id: string, from: nat): (r: Option<nat>)
    requires from <= |ps|
    ensures r.Some? ==> from <= r.value < |ps| && ps[r.value].userId == id
    ensures r.Some? ==> forall j :: from <= j < r.value ==> ps[j].userId != id
    ensures r.None? ==> forall j :: from <= j < |ps| ==> ps[j].userId != id
    decreases |ps| - from
  {
    if from == |ps| then None
    else if ps[from].userId == id then Some(from)
    else FindFrom(ps, id, from + 1)
  }

  /** `currentUserId` is truthy. */
  predicate HasViewerId(p: Props)
  {
    p.currentUserId.Some? && p.currentUserId.value != ""
  }

  /** `currentParticipant`: the first participant with the viewer's id, when
      the viewer's id is truthy. */
  function CurrentParticipant(p: Props): (r: Option<Participant>)
    ensures r.Some? <==> HasViewerId(p)
                         && exists i :: 0 <= i < |p.participants| && p.participants[i].userId == p.currentUserId.value
    ensures r.Some? ==> r.value.userId == p.currentUserId.value
    ensures r.Some? ==> exists i :: 0 <= i < |p.participants| && r.value == p.participants[i]
                                    && forall j :: 0 <= j < i ==> p.participants[j].userId != p.currentUserId.value
  {
    if !HasViewerId(p) then None
    else match FindFrom(p.participants, p.currentUserId.value, 0)
      case None => None
      case Some(i) => Some(p.participants[i])
  }

  /** `isInitiator`: JavaScript `===` on two possibly undefined ids. */
  predicate IsInitiator(p: Props)
  {
    p.currentUserId == p.initiatorId
  }

  /** `hasJoined`: a found participant's `hasPaid` is a boolean, never
      `undefined`, so it holds for the initiator or a listed viewer. */
  predicate HasJoined(p: Props)
  {
    IsInitiator(p) || CurrentParticipant(p).Some?
  }

  /** `hasPaid`, by truthiness. */
  predicate HasPaid(p: Props)
  {
    IsInitiator(p) || (CurrentParticipant(p).Some? && CurrentParticipant(p).value.hasPaid)
  }

  datatype Status = NotJoined | JoinedUnpaid | Paid

  /** The viewer's status; paying implies having joined, so the two flags
      give exactly three states. */
  function ViewerStatus(p: Props): (s: Status)
    ensures s == Paid <==> HasPaid(p)
    ensures s == NotJoined <==> !HasJoined(p)
    ensures s == JoinedUnpaid <==> HasJoined(p) && !HasPaid(p)
  {
    if !HasJoined(p) then NotJoined
    else if !HasPaid(p) then JoinedUnpaid
    else Paid
  }

  /** A participant row's mark: paid when the row is the initiator's or its
      `hasPaid` is set. */
  predicate RowIsPaid(row: Participant, initiatorId: Option<string>)
  {
    Some(row.userId) == initiatorId || row.hasPaid
  }

  /** The join/pay button exists only in the chat-message view, and never for
      the initiator. */
  predicate ButtonShown(p: Props)
  {
    p.isMessage && !IsInitiator(p)
  }

  /** The button is disabled once the viewer has paid. */
  predicate ButtonDisabled(p: Props)
  {
    HasPaid(p)
  }

  datatype ClickAction = CallOnJoin | OpenPaymentModal | DoNothing

  /** What the button's click handler does: call `onJoin` (when given) before
      joining, open the payment modal after joining, nothing once paid. */
  function OnClick(p: Props): (a: ClickAction)
    ensures a == CallOnJoin <==> ViewerStatus(p) == NotJoined
    ensures a == OpenPaymentModal <==> ViewerStatus(p) == JoinedUnpaid
    ensures a == DoNothing <==> ViewerStatus(p) == Paid
  {
    if !HasJoined(p) then CallOnJoin
    else if !HasPaid(p) then OpenPaymentModal
    else DoNothing
  }

  /** The button's text. */
  function ButtonLabel(p: Props): (text: string)
    ensures text == "Join Split" <==> ViewerStatus(p) == NotJoined
    ensures text == "Pay 0.1 WLD" <==> ViewerStatus(p) == JoinedUnpaid
    ensures text == "Paid ✓" <==> ViewerStatus(p) == Paid
  {
    if !HasJoined(p) then "Join Split"
    else if !HasPaid(p) then "Pay 0.1 WLD"
    else "Paid ✓"
  }

  datatype SplitHeader = SplitWays(ways: int) | ParticipantsHeading

  /** The heading above the participant list; the per-head amount beside it
      is shown exactly when the heading is `Split N ways`. */
  function Heading(connectedUsers: int): (h: SplitHeader)
    ensures h.SplitWays? <==> connectedUsers > 1
    ensures h.SplitWays? ==> h.ways == connectedUsers
  {
    if connectedUsers > 1 then SplitWays(connectedUsers) else ParticipantsHeading
  }

  /** Whether the per-head amount is rendered beside the heading. */
  predicate ShowsPerHeadAmount(connectedUsers: int)
  {
    connectedUsers > 1
  }

  /** The amount appears exactly with the `Split N ways` heading. */
  lemma PerHeadAmountWithSplitHeading(connectedUsers: int)
    ensures ShowsPerHeadAmount(connectedUsers) <==> Heading(connectedUsers).SplitWays?
    ensures ShowsPerHeadAmount(connectedUsers) ==> Heading(connectedUsers).ways >= 2
  {
  }

  /** The initiator is joined and paid whatever the participant list holds. */
  lemma InitiatorIsPaid(p: Props)
    requires IsInitiator(p)
    ensures ViewerStatus(p) == Paid && !ButtonShown(p)
  {
  }

  /** A viewer who is not the initiator has joined exactly when some
      participant carries their (truthy) id, and then their status is the
      `hasPaid` of the first such participant. */
  lemma {:induction false} NonInitiatorStatusFromFirstMatch(p: Props, i: nat)
    requires !IsInitiator(p) && HasViewerId(p)
    requires i < |p.participants| && p.participants[i].userId == p.currentUserId.value
    requires forall j :: 0 <= j < i ==> p.participants[j].userId != p.currentUserId.value
    ensures HasJoined(p)
    ensures ViewerStatus(p) == if p.participants[i].hasPaid then Paid else JoinedUnpaid
  {
    var r := FindFrom(p.participants, p.currentUserId.value, 0);
    assert r.Some?;
    assert r.value == i;
  }

  /** A viewer who is neither the initiator nor listed has not joined. */
  lemma NotListedNotJoined(p: Props)
    requires !IsInitiator(p)
    requires !HasViewerId(p) || forall j :: 0 <= j < |p.participants| ==> p.participants[j].userId != p.currentUserId.value
    ensures ViewerStatus(p) == NotJoined
  {
  }

  /** For a non-initiator viewer, their own (first) row shows paid exactly
      when their status is `Paid`: the row test and the viewer test agree. */
  lemma {:induction false} OwnRowAgreesWithStatus(p: Props, i: nat)
    requires !IsInitiator(p) && HasViewerId(p)
    requires i < |p.participants| && p.participants[i].userId == p.currentUserId.value
    requires forall j :: 0 <= j < i ==> p.participants[j].userId != p.currentUserId.value
    ensures RowIsPaid(p.participants[i], p.initiatorId) <==> ViewerStatus(p) == Paid
  {
    NonInitiatorStatusFromFirstMatch(p, i);
  }

  /** `undefined === undefined`: a card rendered without both ids treats the
      viewer as the initiator, paid, with no button, whoever is listed. */
  lemma MissingIdsMeanInitiator(ps: seq<Participant>, isMessage: bool, connectedUsers: int)
    ensures var p := Props(ps, isMessage, None, None, connectedUsers);
      IsInitiator(p) && ViewerStatus(p) == Paid && !ButtonShown(p)
  {
  }

  /** The button is disabled exactly when its handler would do nothing. */
  lemma DisabledIffNoAction(p: Props)
    ensures ButtonDisabled(p) <==> OnClick(p) == DoNothing
  {
  }

  /** The card's mutable state: whether the payment modal is open. */
  class PaymentModalState {
    var showPaymentModal: bool

    constructor ()
      ensures !showPaymentModal
    {
      showPaymentModal := false;
    }

    /** A click on the join/pay button. */
    method Click(p: Props) returns (action: ClickAction)
      modifies this
      ensures action == OnClick(p)
      ensures showPaymentModal == (old(showPaymentModal) || ViewerStatus(p) == JoinedUnpaid)
    {
      action := OnClick(p);
      if action == OpenPaymentModal {
        showPaymentModal := true;
      }
    }

    /** The modal's `onClose`. */
    method Close()
      modifies this
      ensures !showPaymentModal
    {
      showPaymentModal := false;
    }

    /** The modal's `onSuccess`: `onPay` is called, outside this model, and
        the modal closes. */
    method PaymentSucceeded()
      modifies this
      ensures !showPaymentModal
    {
      showPaymentModal := false;
    }
  }
}
