/** The approval queue's rows: proposal, signatures, dispatch to the mailbox, delivery. */
module Approval {
  import opened Wrappers

  /* Each helper changes one row in place and is one atomic step; `ApprovalSweep` has the sweeps.
     The main results, in `ApprovalRuns`, hold on every interleaving of creates, edits,
     approvals, rejections, sweeps and bounces: how a decided row was signed, that its payload
     is frozen, when its signers saw that payload, that rejection is final, exactly when an
     item is dispatched at most once, and that delivery only moves forward, to `delivered`
     only after the full confirmation window. */

  datatype Status = Pending | Approved | Rejected | Sent | DispatchFailed

  datatype Delivery = Unknown | Out | Delivered | Bounced   // unknown / sent / delivered / failed

  /** An email draft's payload as the dispatcher reads it: the sender's id when it is a valid
      UUID, and whether recipients, subject and body have the right shape. */
  datatype Payload = Payload(sender: Option<string>, shaped: bool, body: string)

  /** A system signature also carries the threshold that its row was judged by. */
  datatype Signature = System(at: int, confidence: real, threshold: real)
                     | User(userId: string, at: int, notes: Option<string>)

  datatype Notes =
    | NoNotes
    | Auto(confidence: real, threshold: real)
    | Human(text: string)
    | DispatchReason(reason: string)

  datatype Row = Row(category: string, payload: Payload, status: Status, required: int, signatures: seq<Signature>,
                     confidence: Option<real>, decidedAt: Option<int>, decidedBy: Option<string>, notes: Notes,
                     lastEditedAt: Option<int>, lastEditedBy: Option<string>, updatedAt: int,
                     delivery: Delivery, deliveryDetail: string, deliveryUpdatedAt: Option<int>,
                     messageId: Option<string>)

  datatype CreateInput = CreateInput(category: string, payload: Payload, requiredApprovals: Option<int>,
                                     confidence: Option<real>, autoApproveThreshold: Option<real>)

  datatype Settings = Settings(twoPersonCategories: set<string>, defaultThreshold: real)

  datatype Error = NotFound | NotPending | AlreadySigned
  datatype Result = Ok(row: Row) | Err(error: Error)

  /** What resolving the sender and creating the Outlook draft comes to.  A failure may have
      left a draft in the mailbox: a reply whose second request fails, or a response that
      cannot be read. */
  datatype Attempt =
    | UserMissing
    | NoToken
    | ShadowBlocked
    | ConnectorError(left: bool)
    | Crash(left: bool)
    | Draft(messageId: Option<string>)

  /** One item of a sweep.  `saves`: the session was committed on the way, by a token refresh
      or by recording a failure.  An exception escapes from resolving the sender, or from
      writing the row when its draft has been created. */
  datatype ItemOutcome = Handled(attempt: Attempt, saves: bool) | EscapesResolving(saves: bool) | EscapesFlushing

  const WINDOW: int := 4 * 60 * 60   // seconds

  // ----- the helpers as functions of the row

  function Required(settings: Settings, input: CreateInput): int {
    match input.requiredApprovals
    case Some(n) => n
    case None => if input.category in settings.twoPersonCategories then 2 else 1
  }

  function Threshold(settings: Settings, input: CreateInput): real {
    match input.autoApproveThreshold case Some(t) => t case None => settings.defaultThreshold
  }

  function Create(settings: Settings, input: CreateInput, now: int): Row {
    var required, threshold := Required(settings, input), Threshold(settings, input);
    var auto := required == 1 && input.confidence.Some? && input.confidence.value >= threshold;
    Row(input.category, input.payload, if auto then Approved else Pending, required,
        if auto then [System(now, input.confidence.value, threshold)] else [],
        input.confidence, if auto then Some(now) else None, None,
        if auto then Auto(input.confidence.value, threshold) else NoNotes,
        None, None, now, Unknown, "", None, None)
  }

  function NotesOf(notes: Option<string>): Notes {
    match notes case Some(text) => Human(text) case None => NoNotes
  }

  predicate HasSigned(signatures: seq<Signature>, userId: string) {
    exists i | 0 <= i < |signatures| :: signatures[i].User? && signatures[i].userId == userId
  }

  function Approve(row: Row, userId: string, notes: Option<string>, now: int): Result {
    if row.status != Pending then Err(NotPending)
    else if HasSigned(row.signatures, userId) then Err(AlreadySigned)
    else
      var signed := row.(signatures := row.signatures + [User(userId, now, notes)], updatedAt := now);
      Ok(if |signed.signatures| >= row.required
         then signed.(status := Approved, decidedAt := Some(now), decidedBy := Some(userId), notes := NotesOf(notes))
         else signed)
  }

  function Reject(row: Row, userId: string, notes: Option<string>, now: int): Result {
    if row.status != Pending then Err(NotPending)
    else Ok(row.(status := Rejected, decidedAt := Some(now), decidedBy := Some(userId), notes := NotesOf(notes),
                 updatedAt := now))
  }

  function EditPayload(row: Row, payload: Payload, userId: string, now: int): Result {
    if row.status != Pending then Err(NotPending)
    else Ok(row.(payload := payload, lastEditedAt := Some(now), lastEditedBy := Some(userId), updatedAt := now))
  }

  function MarkFailed(row: Row, reason: string, now: int): Row {
    row.(status := DispatchFailed, updatedAt := now, notes := DispatchReason(reason))
  }

  /** `dispatch_email_draft`: the row and the action label. */
  function Dispatch(row: Row, attempt: Attempt, now: int): (Row, string) {
    if row.payload.sender == None then (MarkFailed(row, "bad_payload_no_sender", now), "bad_payload_no_sender")
    else if !row.payload.shaped then (MarkFailed(row, "bad_payload_shape", now), "bad_payload_shape")
    else
      match attempt
      case UserMissing => (MarkFailed(row, "user_missing", now), "user_missing")
      case NoToken => (MarkFailed(row, "user_no_token", now), "user_no_token")
      case ShadowBlocked => (MarkFailed(row, "shadow_blocked", now), "shadow_blocked")
      case ConnectorError(_) => (MarkFailed(row, "connector_error", now), "connector_error")
      case Crash(_) => (MarkFailed(row, "crashed", now), "crashed")
      case Draft(id) =>
        (row.(status := Sent, updatedAt := now, messageId := id, delivery := Out, deliveryUpdatedAt := Some(now)),
         "dispatched")
  }

  predicate GoodPayload(row: Row) {
    row.payload.sender.Some? && row.payload.shaped
  }

  /** A draft of the item comes into being. */
  predicate MakesDraft(row: Row, o: ItemOutcome) {
    GoodPayload(row) &&
    match o
    case Handled(Draft(_), _) => true
    case Handled(ConnectorError(left), _) => left
    case Handled(Crash(left), _) => left
    case EscapesFlushing => true
    case _ => false
  }

  /** The session is committed before the item's row is changed; creating a draft does so. */
  predicate CommitsFirst(row: Row, o: ItemOutcome) {
    GoodPayload(row) &&
    match o
    case Handled(UserMissing, _) => false
    case Handled(attempt, saves) => saves || attempt.Draft? || attempt.ShadowBlocked?
    case EscapesResolving(saves) => saves
    case EscapesFlushing => true
  }

  predicate Escapes(row: Row, o: ItemOutcome) {
    GoodPayload(row) && !o.Handled?
  }

  predicate Dispatchable(row: Row) {
    (row.status == Approved || row.status == DispatchFailed) && row.category == "email_draft"
  }

  /** The delivery sweep's query. */
  predicate Confirmable(row: Row, now: int) {
    row.delivery == Out && row.deliveryUpdatedAt.Some? && row.deliveryUpdatedAt.value < now - WINDOW
  }

  function Confirm(row: Row, now: int): Row {
    row.(delivery := Delivered, deliveryUpdatedAt := Some(now), updatedAt := now)
  }

  function Bounce(row: Row, detail: string, now: int): Row {
    row.(delivery := Bounced, deliveryDetail := if |detail| <= 500 then detail else detail[..500],
         deliveryUpdatedAt := Some(now), updatedAt := now)
  }

  // ----- the row object, as the code updates it

  class ApprovalItem {
    var row: Row

    /** Approved, with the system's signature as its only one, if and only if one signature is
        required and the confidence reaches the threshold; else pending and unsigned. */
    constructor (settings: Settings, input: CreateInput, now: int)
      ensures row == Create(settings, input, now) && RowOk(row)
      ensures var threshold := if input.autoApproveThreshold.Some? then input.autoApproveThreshold.value
                               else settings.defaultThreshold;
              (row.status == Approved <==>
                 (input.requiredApprovals == Some(1) ||
                  (input.requiredApprovals == None && input.category !in settings.twoPersonCategories)) &&
                 input.confidence.Some? && input.confidence.value >= threshold) &&
              (row.status == Approved ==>
                 row.signatures == [System(now, input.confidence.value, threshold)] && row.decidedAt == Some(now))
      ensures row.status != Approved ==> row.status == Pending && row.signatures == [] && row.decidedAt == None
      ensures row.payload == input.payload && row.category == input.category && row.delivery == Unknown
      ensures row.decidedBy == None && row.lastEditedAt == None && row.updatedAt == now
    {
      row := Create(settings, input, now);
    }

    method ApproveItem(userId: string, notes: Option<string>, now: int) returns (error: Option<Error>)
      modifies this
      ensures match Approve(old(row), userId, notes, now)
              case Ok(r) => row == r && error == None
              case Err(e) => row == old(row) && error == Some(e)
    {
      if row.status != Pending {
        return Some(NotPending);
      }
      var i := 0;
      while i < |row.signatures|
        invariant i <= |row.signatures| && row == old(row)
        invariant forall j | 0 <= j < i :: !(row.signatures[j].User? && row.signatures[j].userId == userId)
      {
        if row.signatures[i].User? && row.signatures[i].userId == userId {
          return Some(AlreadySigned);
        }
        i := i + 1;
      }
      row := row.(signatures := row.signatures + [User(userId, now, notes)], updatedAt := now);
      if |row.signatures| >= row.required {
        row := row.(status := Approved, decidedAt := Some(now), decidedBy := Some(userId), notes := NotesOf(notes));
      }
      return None;
    }

    method RejectItem(userId: string, notes: Option<string>, now: int) returns (error: Option<Error>)
      modifies this
      ensures match Reject(old(row), userId, notes, now)
              case Ok(r) => row == r && error == None
              case Err(e) => row == old(row) && error == Some(e)
    {
      if row.status != Pending {
        return Some(NotPending);
      }
      row := row.(status := Rejected, decidedAt := Some(now), decidedBy := Some(userId));
      row := row.(notes := NotesOf(notes), updatedAt := now);
      return None;
    }

    method EditItem(payload: Payload, userId: string, now: int) returns (error: Option<Error>)
      modifies this
      ensures match EditPayload(old(row), payload, userId, now)
              case Ok(r) => row == r && error == None
              case Err(e) => row == old(row) && error == Some(e)
      ensures error == None <==> old(row).status == Pending
      ensures error == None ==>
                row.payload == payload && row.lastEditedAt == Some(now) && row.lastEditedBy == Some(userId) &&
                row.updatedAt == now && row.signatures == old(row).signatures
    {
      if row.status != Pending {
        return Some(NotPending);
      }
      row := row.(payload := payload);
      row := row.(lastEditedAt := Some(now), lastEditedBy := Some(userId), updatedAt := now);
      return None;
    }

    /** The action label, or None when an exception escapes, the row then being unchanged here. */
    method DispatchItem(o: ItemOutcome, now: int) returns (action: Option<string>)
      modifies this
      ensures Escapes(old(row), o) ==> action == None && row == old(row)
      ensures !Escapes(old(row), o) ==> action.Some? && (row, action.value) == Tried(old(row), o, now)
    {
      if row.payload.sender == None {
        row := MarkFailed(row, "bad_payload_no_sender", now);
        return Some("bad_payload_no_sender");
      }
      if !row.payload.shaped {
        row := MarkFailed(row, "bad_payload_shape", now);
        return Some("bad_payload_shape");
      }
      if !o.Handled? {
        return None;
      }
      var reason;
      match o.attempt {
        case UserMissing => reason := "user_missing";
        case NoToken => reason := "user_no_token";
        case ShadowBlocked => reason := "shadow_blocked";
        case ConnectorError(_) => reason := "connector_error";
        case Crash(_) => reason := "crashed";
        case Draft(id) =>
          row := row.(status := Sent, updatedAt := now, messageId := id, delivery := Out,
                      deliveryUpdatedAt := Some(now));
          return Some("dispatched");
      }
      row := MarkFailed(row, reason, now);
      return Some(reason);
    }

    /** `mark_delivery_failed`, on the row that the report correlates with. */
    method MarkDeliveryFailed(detail: string, now: int)
      modifies this
      ensures row == Bounce(old(row), detail, now)
      ensures row.delivery == Bounced && row.deliveryUpdatedAt == Some(now) && row.updatedAt == now
      ensures row.deliveryDetail <= detail && |row.deliveryDetail| <= 500
      ensures row.deliveryDetail == detail || |row.deliveryDetail| == 500
    {
      row := row.(delivery := Bounced, deliveryDetail := if |detail| <= 500 then detail else detail[..500]);
      row := row.(deliveryUpdatedAt := Some(now), updatedAt := now);
    }
  }

  /** The row and label of an item that is handled; a bad payload never gets to its attempt. */
  function Tried(row: Row, o: ItemOutcome, now: int): (Row, string) {
    Dispatch(row, if o.Handled? then o.attempt else UserMissing, now)
  }

  /** The action label tells what came of an item, and so does its row: `sent` from now on, or
      failed for the reason that the label names. */
  lemma LabelsTell(row: Row, o: ItemOutcome, now: int)
    requires !Escapes(row, o)
    ensures var (r, action) := Tried(row, o, now);
            (action == "bad_payload_no_sender" <==> row.payload.sender == None) &&
            (action == "bad_payload_shape" <==> row.payload.sender.Some? && !row.payload.shaped) &&
            (GoodPayload(row) ==>
               (action == "user_missing" <==> o.attempt.UserMissing?) &&
               (action == "user_no_token" <==> o.attempt.NoToken?) &&
               (action == "shadow_blocked" <==> o.attempt.ShadowBlocked?) &&
               (action == "connector_error" <==> o.attempt.ConnectorError?) &&
               (action == "crashed" <==> o.attempt.Crash?)) &&
            (action == "dispatched" <==> r.status == Sent) &&
            r.updatedAt == now && r.payload == row.payload && r.signatures == row.signatures &&
            if GoodPayload(row) && o.attempt.Draft?
            then r.status == Sent && r.messageId == o.attempt.messageId && r.delivery == Out &&
                 r.deliveryUpdatedAt == Some(now)
            else r.status == DispatchFailed && r.notes == DispatchReason(action) && r.delivery == row.delivery
  {
    assert |"user_missing"| == 12 && |"user_no_token"| == 13 && |"shadow_blocked"| == 14 && |"crashed"| == 7;
    assert |"connector_error"| == 15 && |"dispatched"| == 10;
    assert |"bad_payload_no_sender"| == 21 && |"bad_payload_shape"| == 17;
  }

  // ----- what every row satisfies

  predicate AllDistinctUsers(signatures: seq<Signature>) {
    (forall i | 0 <= i < |signatures| :: signatures[i].User?) &&
    forall i, j | 0 <= i < j < |signatures| :: signatures[i].userId != signatures[j].userId
  }

  /** Signed by exactly as many different people as required (at least one), or by the
      system, whose confidence reached the threshold and who may only sign alone. */
  predicate ProperlySigned(row: Row) {
    (AllDistinctUsers(row.signatures) && |row.signatures| == if row.required < 1 then 1 else row.required) ||
    (|row.signatures| == 1 && row.signatures[0].System? && row.required == 1 &&
     row.confidence == Some(row.signatures[0].confidence) &&
     row.signatures[0].confidence >= row.signatures[0].threshold)
  }

  predicate NotYetSigned(row: Row) {
    AllDistinctUsers(row.signatures) && (row.signatures == [] || |row.signatures| < row.required)
  }

  predicate RowOk(row: Row) {
    (if row.status == Pending || row.status == Rejected then NotYetSigned(row) else ProperlySigned(row)) &&
    (row.status == Sent <==> row.delivery != Unknown) &&
    (row.delivery != Unknown <==> row.deliveryUpdatedAt.Some?) &&
    (row.messageId.Some? ==> row.status == Sent) &&
    (row.status == Sent ==> row.category == "email_draft")
  }

  function Rank(d: Delivery): nat {
    match d case Unknown => 0 case Out => 1 case Delivered => 2 case Bounced => 3
  }

  /** What may become of a row, however long the run. */
  predicate Later(r: Row, s: Row) {
    s.category == r.category && s.required == r.required && s.confidence == r.confidence &&
    r.signatures <= s.signatures &&
    (r.status != Pending ==>
       s.status != Pending && s.payload == r.payload && s.signatures == r.signatures &&
       s.decidedAt == r.decidedAt && s.decidedBy == r.decidedBy && s.lastEditedAt == r.lastEditedAt) &&
    (r.status == Rejected ==> s == r) &&
    (r.status != Pending && r.status != Rejected ==> s.status != Rejected) &&
    (r.status == Sent ==> s.status == Sent && s.messageId == r.messageId) &&
    Rank(r.delivery) <= Rank(s.delivery)
  }

  /** A row against the draft created for it at `at`. */
  predicate MatchesDraft(row: Row, at: int) {
    row.status == Sent && row.deliveryUpdatedAt.Some? &&
    (row.delivery == Out ==> row.deliveryUpdatedAt.value == at) &&
    (row.delivery == Delivered ==> row.deliveryUpdatedAt.value > at + WINDOW)
  }

  predicate CanHaveDraft(row: Row) {
    row.status == Sent || (Dispatchable(row) && GoodPayload(row))
  }

  // ----- each helper, on one row

  lemma CreateOk(settings: Settings, input: CreateInput, now: int)
    ensures RowOk(Create(settings, input, now)) && Create(settings, input, now).status != Sent
  {
  }

  /** A change of one row that leaves the drafts alone. */
  ghost predicate Keeps(r: Row, s: Row) {
    RowOk(s) && Later(r, s) && (s.status == Sent <==> r.status == Sent) && (CanHaveDraft(r) ==> CanHaveDraft(s)) &&
    forall at :: MatchesDraft(r, at) ==> MatchesDraft(s, at)
  }

  lemma ApproveKeeps(row: Row, userId: string, notes: Option<string>, now: int)
    requires RowOk(row) && Approve(row, userId, notes, now).Ok?
    ensures Keeps(row, Approve(row, userId, notes, now).row)
  {
  }

  /** Who decided, and when: the last to sign, or the one who rejects; before that nobody. */
  lemma DecisionIsTheLastSigners(row: Row, userId: string, notes: Option<string>, now: int)
    requires row.status == Pending && row.decidedBy == None && row.decidedAt == None
    ensures match Approve(row, userId, notes, now)
            case Ok(r) =>
              r.signatures == row.signatures + [User(userId, now, notes)] && r.updatedAt == now &&
              if r.status == Pending then r.decidedBy == None && r.decidedAt == None
              else r.decidedBy == Some(userId) && r.decidedAt == Some(now)
            case Err(e) => e == AlreadySigned && exists s | s in row.signatures :: s.User? && s.userId == userId
    ensures var r := Reject(row, userId, notes, now);
            r.Ok? && r.row.status == Rejected && r.row.decidedBy == Some(userId) && r.row.decidedAt == Some(now) &&
            r.row.updatedAt == now && r.row.signatures == row.signatures && r.row.payload == row.payload
  {
  }

  lemma RejectKeeps(row: Row, userId: string, notes: Option<string>, now: int)
    requires RowOk(row) && Reject(row, userId, notes, now).Ok?
    ensures Keeps(row, Reject(row, userId, notes, now).row)
  {
  }

  lemma EditKeeps(row: Row, payload: Payload, userId: string, now: int)
    requires RowOk(row) && EditPayload(row, payload, userId, now).Ok?
    ensures Keeps(row, EditPayload(row, payload, userId, now).row)
  {
  }

  lemma DeliveryKeeps(row: Row, detail: string, now: int)
    requires RowOk(row)
    ensures Confirmable(row, now) ==> Keeps(row, Confirm(row, now))
    ensures row.messageId.Some? ==> Keeps(row, Bounce(row, detail, now))
  {
  }

  /** `required_approvals` may be overridden with 0: the row then still needs one signature. */
  lemma NobodyRequiredStillNeedsOne(settings: Settings, payload: Payload, userId: string, now: int)
    ensures var row := Create(settings, CreateInput("note", payload, Some(0), None, None), now);
            row.status == Pending && Approve(row, userId, None, now).Ok? &&
            Approve(row, userId, None, now).row.status == Approved &&
            |Approve(row, userId, None, now).row.signatures| == 1 > row.required
  {
  }

  /** Editing keeps earlier signatures: a two-person row can be approved with a payload that
      was put in after its first signature. */
  lemma FirstSignerMayNotSeeTheFinalPayload(settings: Settings, input: CreateInput, payload: Payload,
                                            first: string, editor: string, second: string, at: int)
    requires Required(settings, input) == 2 && first != second
    ensures var signed := Approve(Create(settings, input, at), first, None, at);
            signed.Ok? &&
            var edited := EditPayload(signed.row, payload, editor, at + 1);
            edited.Ok? &&
            var approved := Approve(edited.row, second, None, at + 2);
            approved.Ok? && approved.row.status == Approved && approved.row.payload == payload &&
            approved.row.signatures == [User(first, at, None), User(second, at + 2, None)]
  {
    var row := Create(settings, input, at);
    assert row.signatures + [User(first, at, None)] == [User(first, at, None)];
  }

  /** With equal stamps a row does not tell: signing and then replacing the payload within one
      instant leaves the very row that replacing it and then signing does. */
  lemma EqualStampsDoNotTell(settings: Settings, input: CreateInput, payload: Payload, signer: string,
                             editor: string, at: int)
    requires Required(settings, input) == 2
    ensures var row := Create(settings, input, at);
            var signed, edited := Approve(row, signer, None, at), EditPayload(row, payload, editor, at);
            signed.Ok? && edited.Ok? &&
            var editedLast := EditPayload(signed.row, payload, editor, at);
            editedLast.Ok? && editedLast == Approve(edited.row, signer, None, at) &&
            editedLast.row.lastEditedAt == Some(editedLast.row.signatures[0].at)
  {
    var row := Create(settings, input, at);
    assert row.signatures + [User(signer, at, None)] == [User(signer, at, None)];
  }
}
