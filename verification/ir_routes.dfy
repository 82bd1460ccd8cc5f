/**
 * The incident-report handler: every POST mints an `IR-` id, then stores an
 * `Open` slip and notifies quality assurance, with no validation of the form.
 */
module IrRoutes {
  import opened Common
  import opened SlipIds
  import opened Documents
  import opened Email
  import opened Submissions

  /** `get_next_ir_slip_id`. */
  method NextIrSlipId(db: Db, year: nat) returns (slipId: string)
    requires db.Valid()
    modifies db`counters
    ensures db.Valid()
    ensures var (c, n) := Increment(old(db.counters), IrCounter);
      db.counters == c && slipId == FormatSlipId(IrPrefix, year, n)
  {
    var n := db.FindOneAndIncrement(IrCounter);
    slipId := FormatSlipId(IrPrefix, year, n);
  }

  /** The `ir_data` document; every form field may be missing. */
  function IrRecord(slipId: string, form: map<string, string>, user: Actor, now: int): Slip {
    Slip(Some(slipId), Get(form, "order_number"), StatusOpen, now,
      IrDetail(Get(form, "nature_of_complaint"), Get(form, "corrective_action"), user.name, user.email),
      None)
  }

  /** The outcome of a POST, by whether the insert raised and what the notifier did. */
  function IrOutcome(slipId: string, insertFails: bool, rendered: Option<string>, config: MailConfig, sendOk: bool)
    : (r: SubmitOutcome)
    ensures r == DatabaseError <==> insertFails || rendered.None?
    ensures r != FormShown
  {
    if insertFails then DatabaseError
    else OutcomeAfterInsert(slipId, SendIrSubmissionEmail(slipId, rendered, config, sendOk))
  }

  /** With live delivery, a stored report is a success exactly when the send succeeds. */
  lemma IrOutcomeLive(slipId: string, rendered: string, config: MailConfig, sendOk: bool)
    requires !config.testMode
    ensures IrOutcome(slipId, false, Some(rendered), config, sendOk)
            == if sendOk then Created(slipId) else CreatedMailFailed(slipId)
  {
  }

  /** In test mode with no test recipient the report is stored, with a warning. */
  lemma IrOutcomeNoTestRecipient(slipId: string, rendered: string, config: MailConfig, sendOk: bool)
    requires config.testMode && !Truthy(config.testRecipient)
    ensures IrOutcome(slipId, false, Some(rendered), config, sendOk) == CreatedMailFailed(slipId)
  {
  }

  datatype IrRequest = IrRequest(isPost: bool, form: map<string, string>)

  /**
   * `new_ir_slip`: a POST always advances the counter; the slip is stored
   * unless the insert raises, which leaves a gap in the numbering; the
   * notifier only changes the reported outcome.
   */
  method NewIrSlip(
    db: Db, req: IrRequest, user: Actor, year: nat, now: int,
    insertFails: bool, rendered: Option<string>, config: MailConfig, sendOk: bool)
    returns (outcome: SubmitOutcome)
    requires db.Valid()
    modifies db`counters, db`slips
    ensures db.Valid()
    ensures !req.isPost ==> outcome == FormShown && db.counters == old(db.counters) && db.slips == old(db.slips)
    ensures req.isPost ==>
      var (c, n) := Increment(old(db.counters), IrCounter);
      var id := FormatSlipId(IrPrefix, year, n);
      && db.counters == c
      && db.slips == (if insertFails then old(db.slips) else old(db.slips) + [IrRecord(id, req.form, user, now)])
      && outcome == IrOutcome(id, insertFails, rendered, config, sendOk)
  {
    if !req.isPost {
      return FormShown;
    }
    ghost var c0, slips0 := db.counters, db.slips;
    var slipId := NextIrSlipId(db, year);
    var irData := IrRecord(slipId, req.form, user, now);
    if insertFails {
      return DatabaseError;
    }
    MintAdmitted(c0, slips0, IrPrefix, year, irData);
    var _ := db.InsertSlip(irData);
    var emailSent := SendIrSubmissionEmail(slipId, rendered, config, sendOk);
    outcome := OutcomeAfterInsert(slipId, emailSent);
  }
}
