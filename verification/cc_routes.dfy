/**
 * The customer-complaint handler: every POST mints a `CC-` id, then stores an
 * `Open` slip and notifies sales management, with no validation of the form.
 */
module CcRoutes {
  import opened Common
  import opened SlipIds
  import opened Documents
  import opened Email
  import opened Submissions

  /** `get_next_cc_slip_id`. */
  method NextCcSlipId(db: Db, year: nat) returns (slipId: string)
    requires db.Valid()
    modifies db`counters
    ensures db.Valid()
    ensures var (c, n) := Increment(old(db.counters), CcCounter);
      db.counters == c && slipId == FormatSlipId(CcPrefix, year, n)
  {
    var n := db.FindOneAndIncrement(CcCounter);
    slipId := FormatSlipId(CcPrefix, year, n);
  }

  /** The `cc_data` document; every form field may be missing. */
  function CcRecord(slipId: string, form: map<string, string>, user: Actor, now: int): Slip {
    Slip(Some(slipId), Get(form, "order_number"), StatusOpen, now,
      CcDetail(Get(form, "complaint_details"), user.name, user.email),
      None)
  }

  /** The outcome of a POST, by whether the insert raised and what the notifier did. */
  function CcOutcome(slipId: string, insertFails: bool, rendered: Option<string>, config: MailConfig, sendOk: bool)
    : (r: SubmitOutcome)
    ensures r == DatabaseError <==> insertFails || rendered.None?
    ensures r != FormShown
  {
    if insertFails then DatabaseError
    else OutcomeAfterInsert(slipId, SendCcSubmissionEmail(slipId, rendered, config, sendOk))
  }

  /** With live delivery, a stored complaint is a success exactly when the send succeeds. */
  lemma CcOutcomeLive(slipId: string, rendered: string, config: MailConfig, sendOk: bool)
    requires !config.testMode
    ensures CcOutcome(slipId, false, Some(rendered), config, sendOk)
            == if sendOk then Created(slipId) else CreatedMailFailed(slipId)
  {
  }

  /** In test mode with no test recipient the complaint is stored, with a warning. */
  lemma CcOutcomeNoTestRecipient(slipId: string, rendered: string, config: MailConfig, sendOk: bool)
    requires config.testMode && !Truthy(config.testRecipient)
    ensures CcOutcome(slipId, false, Some(rendered), config, sendOk) == CreatedMailFailed(slipId)
  {
  }

  datatype CcRequest = CcRequest(isPost: bool, form: map<string, string>)

  /**
   * `new_cc_slip`: a POST always advances the counter; the slip is stored
   * unless the insert raises, which leaves a gap in the numbering; the
   * notifier only changes the reported outcome.
   */
  method NewCcSlip(
    db: Db, req: CcRequest, user: Actor, year: nat, now: int,
    insertFails: bool, rendered: Option<string>, config: MailConfig, sendOk: bool)
    returns (outcome: SubmitOutcome)
    requires db.Valid()
    modifies db`counters, db`slips
    ensures db.Valid()
    ensures !req.isPost ==> outcome == FormShown && db.counters == old(db.counters) && db.slips == old(db.slips)
    ensures req.isPost ==>
      var (c, n) := Increment(old(db.counters), CcCounter);
      var id := FormatSlipId(CcPrefix, year, n);
      && db.counters == c
      && db.slips == (if insertFails then old(db.slips) else old(db.slips) + [CcRecord(id, req.form, user, now)])
      && outcome == CcOutcome(id, insertFails, rendered, config, sendOk)
  {
    if !req.isPost {
      return FormShown;
    }
    ghost var c0, slips0 := db.counters, db.slips;
    var slipId := NextCcSlipId(db, year);
    var ccData := CcRecord(slipId, req.form, user, now);
    if insertFails {
      return DatabaseError;
    }
    MintAdmitted(c0, slips0, CcPrefix, year, ccData);
    var _ := db.InsertSlip(ccData);
    var emailSent := SendCcSubmissionEmail(slipId, rendered, config, sendOk);
    outcome := OutcomeAfterInsert(slipId, emailSent);
  }
}
