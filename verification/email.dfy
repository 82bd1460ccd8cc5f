/**
 * The best-effort notifier: recipient, cc, subject and body resolution with
 * test-mode substitution, and the recipient lists each notification builds.
 * Delivery itself is a success/failure outcome passed in; rendered templates
 * are opaque text (or a failure to render).
 */
module Email {
  import opened Common

  /** The application config the notifier reads: `TEST_MODE`, `TEST_EMAIL_RECIPIENT`, `EMAIL_FROM`. */
  datatype MailConfig = MailConfig(testMode: bool, testRecipient: Option<string>, sender: Option<string>)

  datatype Message = Message(subject: string, sender: Option<string>, recipients: seq<string>, cc: seq<string>, html: string)

  /** What a notification attempt came to; only `Sent` is a True result. */
  datatype MailResult =
      /** Test mode is on but no test recipient is configured. */
    | NoTestRecipient
      /** The final recipient list is empty. */
    | NoRecipients
      /** `mail.send` raised; the exception is swallowed. */
    | SendFailed(msg: Message)
    | Sent(msg: Message)
      /** Rendering the body template raised before anything was built. */
    | NotBuilt
  {
    predicate Succeeded() {
      Sent?
    }
  }

  const TestSubjectPrefix := "[TEST MODE] "

  /** The trace appended to the body in test mode, naming the original To and Cc. */
  function TestModeFooter(originalTo: string, originalCc: string): string {
    FooterHead + "Original To: " + originalTo + "<br>\n            Original Cc: " + originalCc + FooterTail
  }

  const FooterHead := "\n        <hr>\n        <p style=\"font-family: monospace; font-size: 12px; color: #888;\">\n            <b>--- TEST MODE ACTIVE ---</b><br>\n            "
  const FooterTail := "\n        </p>\n        "

  /** The test-mode trace names the original To and Cc lines verbatim. */
  lemma TestModeFooterNamesOriginals(originalTo: string, originalCc: string)
    ensures exists a, b :: TestModeFooter(originalTo, originalCc)
                           == a + "Original To: " + originalTo + "<br>\n            Original Cc: " + originalCc + b
  {
    var a, b := FooterHead, FooterTail;
    assert TestModeFooter(originalTo, originalCc)
        == a + "Original To: " + originalTo + "<br>\n            Original Cc: " + originalCc + b;
  }

  /** `cc or []`. */
  function CcOrEmpty(cc: Option<seq<string>>): seq<string> {
    if cc.Some? then cc.value else []
  }

  /** How the original Cc is shown in the test-mode trace. */
  function CcText(cc: seq<string>): (t: string)
    ensures cc == [] ==> t == "None"
  {
    if cc == [] then "None" else Join(cc, ", ")
  }

  /**
   * `_send_email_with_test_mode`: in test mode everything goes to the one
   * test recipient, with no cc, a `[TEST MODE] ` subject and the original
   * addressees appended to the body; otherwise the addressees are used as
   * given. Never raises: every failure is a non-`Sent` result.
   */
  function SendWithTestMode(
    subject: string, html: string, recipients: seq<string>, cc: Option<seq<string>>,
    config: MailConfig, sendOk: bool): (r: MailResult)
    ensures r == NoTestRecipient <==> config.testMode && !Truthy(config.testRecipient)
    ensures !r.NotBuilt?
    ensures config.testMode && Truthy(config.testRecipient) ==>
      && (r.Sent? || r.SendFailed?)
      && r.msg.recipients == [config.testRecipient.value]
      && r.msg.cc == []
      && r.msg.subject == TestSubjectPrefix + subject
      && r.msg.html == html + TestModeFooter(Join(recipients, ", "), CcText(CcOrEmpty(cc)))
    ensures !config.testMode ==> (r == NoRecipients <==> recipients == [])
    ensures !config.testMode && recipients != [] ==>
      && (r.Sent? || r.SendFailed?)
      && r.msg.recipients == recipients
      && r.msg.cc == CcOrEmpty(cc)
      && r.msg.subject == subject
      && r.msg.html == html
    ensures (r.Sent? || r.SendFailed?) ==> r.msg.sender == config.sender && (r.Sent? <==> sendOk)
  {
    var finalCc := CcOrEmpty(cc);
    if config.testMode && !Truthy(config.testRecipient) then NoTestRecipient
    else
      var msg :=
        if config.testMode then
          Message(TestSubjectPrefix + subject, config.sender, [config.testRecipient.value], [],
                  html + TestModeFooter(Join(recipients, ", "), CcText(finalCc)))
        else
          Message(subject, config.sender, recipients, finalCc, html);
      if msg.recipients == [] then NoRecipients
      else if sendOk then Sent(msg)
      else SendFailed(msg)
  }

  /** In test mode no message can reach anyone but the configured test recipient. */
  lemma TestModeReachesOnlyTestRecipient(
    subject: string, html: string, recipients: seq<string>, cc: Option<seq<string>>,
    config: MailConfig, sendOk: bool)
    requires config.testMode
    ensures var r := SendWithTestMode(subject, html, recipients, cc, config, sendOk);
      r.Sent? ==> forall x :: x in r.msg.recipients + r.msg.cc ==> Some(x) == config.testRecipient
  {
  }

  // ---------------------------------------------------------------------------
  // QC submission
  // ---------------------------------------------------------------------------

  function Present(s: Option<string>): (r: seq<string>)
    ensures r == [] <==> !Truthy(s)
    ensures Truthy(s) ==> r == [s.value]
  {
    if Truthy(s) then [s.value] else []
  }

  /**
   * The production manager then the dispatch manager, each only when set;
   * the submitter as the only cc, when set.
   */
  method QcSubmissionRecipients(productionManager: Option<string>, dispatchManager: Option<string>, submittedBy: Option<string>)
    returns (recipients: seq<string>, ccRecipients: seq<string>)
    ensures forall x :: x in recipients <==> x != "" && (productionManager == Some(x) || dispatchManager == Some(x))
    ensures |recipients| == |Present(productionManager)| + |Present(dispatchManager)|
    ensures Truthy(productionManager) ==> recipients[0] == productionManager.value
    ensures Truthy(dispatchManager) ==> recipients[|recipients| - 1] == dispatchManager.value
    ensures ccRecipients == Present(submittedBy)
  {
    recipients := [];
    if Truthy(productionManager) {
      recipients := recipients + [productionManager.value];
    }
    if Truthy(dispatchManager) {
      recipients := recipients + [dispatchManager.value];
    }
    ccRecipients := [];
    if Truthy(submittedBy) {
      ccRecipients := ccRecipients + [submittedBy.value];
    }
  }

  function OrNA(s: Option<string>): string {
    if s.Some? then s.value else "N/A"
  }

  function QcSubmissionSubject(slipId: Option<string>, orderNumber: Option<string>): string {
    "[QC SLIP] " + OrNA(slipId) + " - Order " + OrNA(orderNumber) + " Requires Review"
  }

  /**
   * `send_qc_submission_email`: any failure, including one while rendering
   * the body, comes back as a non-`Sent` result (False), never an exception.
   */
  method SendQcSubmissionEmail(
    slipId: Option<string>, orderNumber: Option<string>,
    productionManager: Option<string>, dispatchManager: Option<string>, createdByEmail: Option<string>,
    rendered: Option<string>, config: MailConfig, sendOk: bool)
    returns (r: MailResult)
    ensures rendered.None? ==> r == NotBuilt
    ensures rendered.Some? ==>
      r == SendWithTestMode(QcSubmissionSubject(slipId, orderNumber), rendered.value,
                            Present(productionManager) + Present(dispatchManager),
                            Some(Present(createdByEmail)), config, sendOk)
  {
    var recipients, ccRecipients := QcSubmissionRecipients(productionManager, dispatchManager, createdByEmail);
    assert recipients == Present(productionManager) + Present(dispatchManager);
    if rendered.None? {
      return NotBuilt;
    }
    r := SendWithTestMode(QcSubmissionSubject(slipId, orderNumber), rendered.value, recipients, Some(ccRecipients), config, sendOk);
  }

  // ---------------------------------------------------------------------------
  // QC update
  // ---------------------------------------------------------------------------

  /**
   * The three candidate addresses, each only when set, made distinct by a
   * pass through a set: every candidate appears exactly once, in no
   * particular order.
   */
  method QcUpdateRecipients(productionManager: Option<string>, dispatchManager: Option<string>, createdBy: Option<string>)
    returns (r: seq<string>)
    ensures forall x :: x in r <==> x != "" && (productionManager == Some(x) || dispatchManager == Some(x) || createdBy == Some(x))
    ensures forall i, j :: 0 <= i < j < |r| ==> r[i] != r[j]
    ensures r == [] <==> !Truthy(productionManager) && !Truthy(dispatchManager) && !Truthy(createdBy)
  {
    var recipients := [];
    if Truthy(productionManager) {
      recipients := recipients + [productionManager.value];
    }
    if Truthy(dispatchManager) {
      recipients := recipients + [dispatchManager.value];
    }
    if Truthy(createdBy) {
      recipients := recipients + [createdBy.value];
    }
    var unique := set x | x in recipients;
    if recipients != [] {
      assert recipients[0] in unique;
    }
    r := IterationOrder(unique);
  }

  /** ASCII `str.upper()`. */
  function AsciiUpper(s: string): (u: string)
    ensures |u| == |s|
    ensures forall i :: 0 <= i < |s| ==> !('a' <= u[i] <= 'z')
    ensures forall i :: 0 <= i < |s| ==> u[i] == if 'a' <= s[i] <= 'z' then (s[i] as int - 32) as char else s[i]
  {
    if s == [] then []
    else
      var c := s[0];
      [if 'a' <= c <= 'z' then (c as int - 32) as char else c] + AsciiUpper(s[1..])
  }

  function QcUpdateSubject(slipId: Option<string>, updateType: string): string {
    "[QC UPDATE] " + OrNA(slipId) + " - " + AsciiUpper(updateType)
  }

  /**
   * `send_qc_update_email`: the distinct recipients, no cc. Rendering is not
   * guarded here, so `NotBuilt` stands for an exception its caller sees.
   */
  method SendQcUpdateEmail(
    slipId: Option<string>, updateType: string,
    productionManager: Option<string>, dispatchManager: Option<string>, createdByEmail: Option<string>,
    rendered: Option<string>, config: MailConfig, sendOk: bool)
    returns (r: MailResult, recipients: seq<string>)
    ensures forall x :: x in recipients <==>
      x != "" && (productionManager == Some(x) || dispatchManager == Some(x) || createdByEmail == Some(x))
    ensures forall i, j :: 0 <= i < j < |recipients| ==> recipients[i] != recipients[j]
    ensures rendered.None? ==> r == NotBuilt
    ensures rendered.Some? ==>
      r == SendWithTestMode(QcUpdateSubject(slipId, updateType), rendered.value, recipients, None, config, sendOk)
    ensures !config.testMode && rendered.Some? ==>
      (r == NoRecipients <==> !Truthy(productionManager) && !Truthy(dispatchManager) && !Truthy(createdByEmail))
  {
    recipients := QcUpdateRecipients(productionManager, dispatchManager, createdByEmail);
    if rendered.None? {
      r := NotBuilt;
      return;
    }
    r := SendWithTestMode(QcUpdateSubject(slipId, updateType), rendered.value, recipients, None, config, sendOk);
  }

  // ---------------------------------------------------------------------------
  // Incident report and customer complaint
  // ---------------------------------------------------------------------------

  const IrTo: seq<string> := ["quality_assurance@example.com"]
  const CcTo: seq<string> := ["sales_management@example.com"]
  const NotifyCc: seq<string> := ["eric.mashau@hcaircon.com"]

  /**
   * `send_ir_submission_email`: fixed addressees. Rendering is not guarded,
   * so `NotBuilt` stands for an exception the IR handler catches.
   */
  function SendIrSubmissionEmail(slipId: string, rendered: Option<string>, config: MailConfig, sendOk: bool): (r: MailResult)
    ensures rendered.None? <==> r == NotBuilt
    ensures rendered.Some? && !config.testMode ==>
      (r.Sent? || r.SendFailed?) && r.Sent? == sendOk && r.msg.recipients == IrTo && r.msg.cc == NotifyCc
      && r.msg.subject == "New Inspection Report Logged: " + slipId
  {
    if rendered.None? then NotBuilt
    else SendWithTestMode("New Inspection Report Logged: " + slipId, rendered.value, IrTo, Some(NotifyCc), config, sendOk)
  }

  /** `send_cc_submission_email`, the same shape with the sales addressee. */
  function SendCcSubmissionEmail(slipId: string, rendered: Option<string>, config: MailConfig, sendOk: bool): (r: MailResult)
    ensures rendered.None? <==> r == NotBuilt
    ensures rendered.Some? && !config.testMode ==>
      (r.Sent? || r.SendFailed?) && r.Sent? == sendOk && r.msg.recipients == CcTo && r.msg.cc == NotifyCc
      && r.msg.subject == "Customer Complaint Logged: " + slipId
  {
    if rendered.None? then NotBuilt
    else SendWithTestMode("Customer Complaint Logged: " + slipId, rendered.value, CcTo, Some(NotifyCc), config, sendOk)
  }
}
