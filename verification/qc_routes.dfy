/**
 * The QC handler: validate the order number and the selected lines before
 * minting a `QC-` id, build one actioned line per selected line with its
 * renamed photo uploads, store the slip, then notify on a best-effort basis.
 */
module QcRoutes {
  import opened Common
  import opened SlipIds
  import opened Documents
  import Email

  // ---------------------------------------------------------------------------
  // Line selection
  // ---------------------------------------------------------------------------

  const LineCheckboxPrefix := "line_checkbox_"

  /**
   * The selected line numbers: for every form key starting with
   * `line_checkbox_`, the text after its last `_`. A set, so a line is
   * selected at most once and the selection has no order.
   */
  function SelectedLines(form: map<string, string>): (lines: set<string>)
    ensures forall l :: l in lines ==> '_' !in l
    ensures lines == {} <==> forall k :: k in form ==> !StartsWith(k, LineCheckboxPrefix)
  {
    var lines := set k | k in form && StartsWith(k, LineCheckboxPrefix) :: LastSegment(k, '_');
    assert forall k :: k in form && StartsWith(k, LineCheckboxPrefix) ==> LastSegment(k, '_') in lines;
    lines
  }

  lemma {:induction false} LastSegmentAfter(s: string, c: char, t: string)
    requires c !in t
    ensures LastSegment(s + [c] + t, c) == t
    decreases |t|
  {
    if t == [] {
      assert (s + [c] + t)[|s|] == c;
    } else {
      var init := t[..|t| - 1];
      assert s + [c] + t == (s + [c] + init) + [t[|t| - 1]];
      assert (s + [c] + t)[..|s + [c] + t| - 1] == s + [c] + init;
      LastSegmentAfter(s, c, init);
      assert init + [t[|t| - 1]] == t;
    }
  }

  /** A checkbox `line_checkbox_<n>` selects line `<n>` when `<n>` has no `_`. */
  lemma CheckboxSelectsLine(form: map<string, string>, n: string)
    requires LineCheckboxPrefix + n in form && '_' !in n
    ensures n in SelectedLines(form)
  {
    var k := LineCheckboxPrefix + n;
    assert k == "line_checkbox" + ['_'] + n;
    LastSegmentAfter("line_checkbox", '_', n);
    assert StartsWith(k, LineCheckboxPrefix) by {
      assert k[..|LineCheckboxPrefix|] == LineCheckboxPrefix;
    }
  }

  /** A checkbox key always contains a `_`, so its last segment is a proper suffix. */
  lemma CheckboxSegmentProper(k: string)
    requires StartsWith(k, LineCheckboxPrefix)
    ensures |LastSegment(k, '_')| < |k|
  {
    assert k[13] == LineCheckboxPrefix[13] == '_';
  }

  /**
   * Every selected line comes from a checkbox key: it is the text after the
   * last `_` of some form key starting with `line_checkbox_`.
   */
  lemma SelectedLineFromCheckbox(form: map<string, string>, l: string)
    requires l in SelectedLines(form)
    ensures exists k :: k in form && StartsWith(k, LineCheckboxPrefix) && |l| < |k|
                        && k[|k| - |l|..] == l && k[|k| - |l| - 1] == '_'
  {
    var k :| k in form && StartsWith(k, LineCheckboxPrefix) && LastSegment(k, '_') == l;
    CheckboxSegmentProper(k);
  }

  // ---------------------------------------------------------------------------
  // Attachments
  // ---------------------------------------------------------------------------

  /** `f"{order}_{date}_L{line}_{index+1}_{original}"`. */
  function QcAttachmentName(order: string, today: string, line: string, index: nat, original: string): string {
    order + "_" + today + "_L" + line + "_" + Decimal(index + 1) + "_" + original
  }

  /** The recorded path of the upload at `index` of a line's file list. */
  function QcAttachmentPath(
    slipId: string, order: string, today: string, line: string, index: nat, filename: string, secure: string -> string)
    : string
  {
    UploadPath("qc_slips", slipId, QcAttachmentName(order, today, line, index, secure(filename)))
  }

  /** The recorded paths of the first `n` uploads, skipping those without a filename. */
  function AttachmentsUpTo(
    files: seq<string>, n: nat, slipId: string, order: string, today: string, line: string, secure: string -> string)
    : (paths: seq<string>)
    requires n <= |files|
    ensures |paths| <= n
  {
    if n == 0 then []
    else
      AttachmentsUpTo(files, n - 1, slipId, order, today, line, secure)
        + (if files[n - 1] != "" then [QcAttachmentPath(slipId, order, today, line, n - 1, files[n - 1], secure)] else [])
  }

  /** One more upload extends the recorded paths by its own path, when it has a filename. */
  lemma AttachmentsUpToNext(
    files: seq<string>, n: nat, slipId: string, order: string, today: string, line: string, secure: string -> string)
    requires n < |files|
    ensures AttachmentsUpTo(files, n + 1, slipId, order, today, line, secure)
            == AttachmentsUpTo(files, n, slipId, order, today, line, secure)
               + (if files[n] != "" then [QcAttachmentPath(slipId, order, today, line, n, files[n], secure)] else [])
  {
  }

  /**
   * A line's `attachments`: nothing unless the first upload has a filename;
   * then one path per upload with a filename, numbered by its position in
   * the list (so a skipped upload leaves a gap in the numbering).
   */
  function QcAttachments(
    files: seq<string>, slipId: string, order: string, today: string, line: string, secure: string -> string)
    : seq<string>
  {
    if files == [] || files[0] == "" then [] else AttachmentsUpTo(files, |files|, slipId, order, today, line, secure)
  }

  /** Every upload with a filename among the first `n` has its path recorded. */
  lemma {:induction false} AttachmentsUpToComplete(
    files: seq<string>, n: nat, slipId: string, order: string, today: string, line: string, secure: string -> string, i: nat)
    requires i < n <= |files| && files[i] != ""
    ensures QcAttachmentPath(slipId, order, today, line, i, files[i], secure)
            in AttachmentsUpTo(files, n, slipId, order, today, line, secure)
  {
    var x := QcAttachmentPath(slipId, order, today, line, i, files[i], secure);
    var prev := AttachmentsUpTo(files, n - 1, slipId, order, today, line, secure);
    var last := if files[n - 1] != "" then [QcAttachmentPath(slipId, order, today, line, n - 1, files[n - 1], secure)] else [];
    AttachmentsUpToNext(files, n - 1, slipId, order, today, line, secure);
    assert AttachmentsUpTo(files, n, slipId, order, today, line, secure) == prev + last;
    if i < n - 1 {
      AttachmentsUpToComplete(files, n - 1, slipId, order, today, line, secure, i);
      assert x in prev;
    } else {
      assert last == [x];
    }
  }

  /** Every recorded path is that of one upload with a filename among the first `n`. */
  lemma {:induction false} AttachmentsUpToSound(
    files: seq<string>, n: nat, slipId: string, order: string, today: string, line: string, secure: string -> string, p: string)
    requires n <= |files|
    requires p in AttachmentsUpTo(files, n, slipId, order, today, line, secure)
    ensures exists i :: 0 <= i < n && files[i] != "" && p == QcAttachmentPath(slipId, order, today, line, i, files[i], secure)
  {
    if p in AttachmentsUpTo(files, n - 1, slipId, order, today, line, secure) {
      AttachmentsUpToSound(files, n - 1, slipId, order, today, line, secure, p);
    } else {
      assert files[n - 1] != "" && p == QcAttachmentPath(slipId, order, today, line, n - 1, files[n - 1], secure);
    }
  }

  /**
   * When the first upload has a filename, the attachments are exactly the
   * paths of the uploads that have one.
   */
  lemma QcAttachmentsExact(
    files: seq<string>, slipId: string, order: string, today: string, line: string, secure: string -> string, p: string)
    requires files != [] && files[0] != ""
    ensures p in QcAttachments(files, slipId, order, today, line, secure) <==>
      exists i :: 0 <= i < |files| && files[i] != "" && p == QcAttachmentPath(slipId, order, today, line, i, files[i], secure)
  {
    if p in QcAttachments(files, slipId, order, today, line, secure) {
      AttachmentsUpToSound(files, |files|, slipId, order, today, line, secure, p);
    }
    if exists i :: 0 <= i < |files| && files[i] != "" && p == QcAttachmentPath(slipId, order, today, line, i, files[i], secure) {
      var i :| 0 <= i < |files| && files[i] != "" && p == QcAttachmentPath(slipId, order, today, line, i, files[i], secure);
      AttachmentsUpToComplete(files, |files|, slipId, order, today, line, secure, i);
    }
  }

  lemma DigitsHaveNoUnderscore(s: string)
    requires AllDigits(s)
    ensures '_' !in s
  {
    forall i | 0 <= i < |s| ensures s[i] != '_' {
      assert IsDigit(s[i]);
    }
  }

  /** The text every attachment name of one line starts with. */
  function QcNamePrefix(order: string, today: string, line: string): (p: string)
    ensures p != [] && p[0] == (if order == "" then '_' else order[0])
  {
    order + "_" + today + "_L" + line + "_"
  }

  lemma QcNameShape(order: string, today: string, line: string, i: nat, o: string)
    ensures QcAttachmentName(order, today, line, i, o) == QcNamePrefix(order, today, line) + (Decimal(i + 1) + ['_'] + o)
  {
  }

  /** `d_o` with `d` a numeral splits back into `d` and `o` at its first `_`. */
  lemma NumberedUnique(i: nat, j: nat, o1: string, o2: string)
    requires Decimal(i) + ['_'] + o1 == Decimal(j) + ['_'] + o2
    ensures i == j
  {
    DigitsHaveNoUnderscore(Decimal(i));
    DigitsHaveNoUnderscore(Decimal(j));
    SplitUnique(Decimal(i), o1, Decimal(j), o2, '_');
    DecimalRoundTrip(i);
    DecimalRoundTrip(j);
  }

  /** Two uploads of one line at different positions get different names, whatever their original filenames. */
  lemma QcAttachmentNamesDistinct(order: string, today: string, line: string, i: nat, j: nat, o1: string, o2: string)
    requires i != j
    ensures QcAttachmentName(order, today, line, i, o1) != QcAttachmentName(order, today, line, j, o2)
  {
    var p := QcNamePrefix(order, today, line);
    QcNameShape(order, today, line, i, o1);
    QcNameShape(order, today, line, j, o2);
    if QcAttachmentName(order, today, line, i, o1) == QcAttachmentName(order, today, line, j, o2) {
      var t1, t2 := Decimal(i + 1) + ['_'] + o1, Decimal(j + 1) + ['_'] + o2;
      assert (p + t1)[|p|..] == t1 && (p + t2)[|p|..] == t2;
      NumberedUnique(i + 1, j + 1, o1, o2);
    }
  }

  /** The per-line upload loop. */
  method CollectQcAttachments(
    files: seq<string>, slipId: string, order: string, today: string, line: string, secure: string -> string)
    returns (attachments: seq<string>)
    ensures attachments == QcAttachments(files, slipId, order, today, line, secure)
  {
    attachments := [];
    if files != [] && files[0] != "" {
      for index := 0 to |files|
        invariant attachments == AttachmentsUpTo(files, index, slipId, order, today, line, secure)
      {
        AttachmentsUpToNext(files, index, slipId, order, today, line, secure);
        if files[index] != "" {
          var filePath := QcAttachmentPath(slipId, order, today, line, index, files[index], secure);
          attachments := attachments + [filePath];
        }
      }
    }
  }

  // ---------------------------------------------------------------------------
  // Actioned lines
  // ---------------------------------------------------------------------------

  /** `request.files.getlist(field)`: the filenames, or none when the field is absent. */
  function FilesFor(files: map<string, seq<string>>, field: string): seq<string> {
    if field in files then files[field] else []
  }

  /** The `line_data` record of one selected line. */
  function LineRecord(
    form: map<string, string>, files: map<string, seq<string>>, slipId: string, order: string, today: string,
    line: string, secure: string -> string)
    : ActionedLine
  {
    ActionedLine(
      line,
      Get(form, "partId_" + line),
      Get(form, "partDescription_" + line),
      Get(form, "miscReference_" + line),
      Get(form, "orderQty_" + line),
      Get(form, "actionQty_" + line),
      Get(form, "comment_" + line),
      QcAttachments(FilesFor(files, "photos_" + line), slipId, order, today, line, secure))
  }

  /**
   * `actioned` holds one record for each line of `done` and nothing else,
   * each built from that line's own form fields and uploads, in some order.
   */
  predicate RecordsFor(
    actioned: seq<ActionedLine>, done: set<string>, form: map<string, string>, files: map<string, seq<string>>,
    slipId: string, order: string, today: string, secure: string -> string)
  {
    && |actioned| == |done|
    && (forall k :: 0 <= k < |actioned| ==>
          actioned[k].lineNumber in done
          && actioned[k] == LineRecord(form, files, slipId, order, today, actioned[k].lineNumber, secure))
    && (forall l :: l in done ==> LineRecord(form, files, slipId, order, today, l, secure) in actioned)
    && (forall i, j :: 0 <= i < j < |actioned| ==> actioned[i].lineNumber != actioned[j].lineNumber)
  }

  /** `actioned` lists one record per selected line. */
  predicate ActionedFor(
    actioned: seq<ActionedLine>, form: map<string, string>, files: map<string, seq<string>>,
    slipId: string, order: string, today: string, secure: string -> string)
  {
    RecordsFor(actioned, SelectedLines(form), form, files, slipId, order, today, secure)
  }

  /** Building the records line by line in an order that visits each selected line once gives one record per line. */
  lemma EnumeratedRecords(
    actioned: seq<ActionedLine>, visit: seq<string>, lines: set<string>, form: map<string, string>,
    files: map<string, seq<string>>, slipId: string, order: string, today: string, secure: string -> string)
    requires EnumeratesOnce(visit, lines)
    requires |actioned| == |visit|
    requires forall k :: 0 <= k < |visit| ==> actioned[k] == LineRecord(form, files, slipId, order, today, visit[k], secure)
    ensures RecordsFor(actioned, lines, form, files, slipId, order, today, secure)
  {
    forall l | l in lines ensures LineRecord(form, files, slipId, order, today, l, secure) in actioned {
      var k :| 0 <= k < |visit| && visit[k] == l;
      assert actioned[k] == LineRecord(form, files, slipId, order, today, l, secure);
    }
    forall i, j | 0 <= i < j < |actioned| ensures actioned[i].lineNumber != actioned[j].lineNumber {
      assert actioned[i].lineNumber == visit[i] && actioned[j].lineNumber == visit[j];
    }
  }

  /** The body of the loop over the selected lines: one line's record, uploads included. */
  method ActionLine(
    form: map<string, string>, files: map<string, seq<string>>,
    slipId: string, order: string, today: string, lineNum: string, secure: string -> string)
    returns (lineData: ActionedLine)
    ensures lineData == LineRecord(form, files, slipId, order, today, lineNum, secure)
  {
    var attachments := CollectQcAttachments(FilesFor(files, "photos_" + lineNum), slipId, order, today, lineNum, secure);
    lineData := ActionedLine(
      lineNum,
      Get(form, "partId_" + lineNum),
      Get(form, "partDescription_" + lineNum),
      Get(form, "miscReference_" + lineNum),
      Get(form, "orderQty_" + lineNum),
      Get(form, "actionQty_" + lineNum),
      Get(form, "comment_" + lineNum),
      attachments);
  }

  /** The loop over the selected lines, visiting the set in whatever order it yields. */
  method BuildActionedLines(
    lines: set<string>, form: map<string, string>, files: map<string, seq<string>>,
    slipId: string, order: string, today: string, secure: string -> string)
    returns (actioned: seq<ActionedLine>)
    ensures RecordsFor(actioned, lines, form, files, slipId, order, today, secure)
  {
    var visit := IterationOrder(lines);
    actioned := [];
    for i := 0 to |visit|
      invariant |actioned| == i
      invariant forall k :: 0 <= k < i ==> actioned[k] == LineRecord(form, files, slipId, order, today, visit[k], secure)
    {
      var lineData := ActionLine(form, files, slipId, order, today, visit[i], secure);
      actioned := actioned + [lineData];
    }
    EnumeratedRecords(actioned, visit, lines, form, files, slipId, order, today, secure);
  }

  // ---------------------------------------------------------------------------
  // The handler
  // ---------------------------------------------------------------------------

  /** `get_next_qc_slip_id`. */
  method NextQcSlipId(db: Db, year: nat) returns (slipId: string)
    requires db.Valid()
    modifies db`counters
    ensures db.Valid()
    ensures var (c, n) := Increment(old(db.counters), QcCounter);
      db.counters == c && slipId == FormatSlipId(QcPrefix, year, n)
  {
    var n := db.FindOneAndIncrement(QcCounter);
    slipId := FormatSlipId(QcPrefix, year, n);
  }

  /** The first QC id ever minted in a year is `QC-<year>-0001`. */
  lemma FirstQcSlipId(c: Counters, year: nat)
    requires QcCounter !in c
    ensures var (c', n) := Increment(c, QcCounter);
      n == 1 && FormatSlipId(QcPrefix, year, n) == "QC-" + Decimal(year) + "-0001"
  {
    assert Decimal(1) == "1";
  }

  /** The slip document the handler inserts. */
  function QcRecord(
    slipId: string, order: string, form: map<string, string>, now: int, user: Actor, actioned: seq<ActionedLine>)
    : Slip
  {
    Slip(Some(slipId), Some(order), StatusComplete, now,
      QcDetail(Get(form, "coa_number"), Get(form, "qc_type"),
               Get(form, "production_manager_email"), Get(form, "dispatch_manager_email"),
               user.name, user.email, actioned),
      None)
  }

  /** `request.form` as its first value per key, and `request.files` as the filenames per field. */
  datatype QcRequest = QcRequest(isPost: bool, form: map<string, string>, files: map<string, seq<string>>)

  datatype QcOutcome =
    | FormShown
    | MissingOrder
    | NoLines
    | Created(slipId: string)

  /**
   * The creating half of `new_qc_slip`, once the order number and the
   * selection have passed: mint the id, build the lines, insert the slip.
   */
  method CreateQcSlip(
    db: Db, form: map<string, string>, files: map<string, seq<string>>, order: string, user: Actor,
    year: nat, today: string, now: int, secure: string -> string)
    returns (slipId: string)
    requires db.Valid()
    modifies db`counters, db`slips
    ensures db.Valid()
    ensures var (c, n) := Increment(old(db.counters), QcCounter);
      && db.counters == c
      && slipId == FormatSlipId(QcPrefix, year, n)
      && |db.slips| == |old(db.slips)| + 1
      && db.slips[..|old(db.slips)|] == old(db.slips)
      && (var s := db.slips[|old(db.slips)|];
          && s.detail.QcDetail?
          && s == QcRecord(slipId, order, form, now, user, s.detail.actionedLines)
          && ActionedFor(s.detail.actionedLines, form, files, slipId, order, today, secure))
  {
    ghost var c0, slips0 := db.counters, db.slips;
    slipId := NextQcSlipId(db, year);
    var actioned := BuildActionedLines(SelectedLines(form), form, files, slipId, order, today, secure);
    var slip := QcRecord(slipId, order, form, now, user, actioned);
    MintAdmitted(c0, slips0, QcPrefix, year, slip);
    var _ := db.InsertSlip(slip);
    assert db.slips[..|slips0|] == slips0;
  }

  /**
   * `new_qc_slip`: a missing order number or an empty selection stops
   * before any id is minted; otherwise exactly one complete QC slip is
   * appended and the outcome is success, whatever the notifier does.
   */
  method NewQcSlip(
    db: Db, req: QcRequest, user: Actor, year: nat, today: string, now: int, secure: string -> string,
    rendered: Option<string>, mail: Email.MailConfig, sendOk: bool)
    returns (outcome: QcOutcome)
    requires db.Valid()
    modifies db`counters, db`slips
    ensures db.Valid()
    ensures !req.isPost ==> outcome == FormShown && db.counters == old(db.counters) && db.slips == old(db.slips)
    ensures req.isPost && !Truthy(Get(req.form, "order_number")) ==>
      outcome == MissingOrder && db.counters == old(db.counters) && db.slips == old(db.slips)
    ensures req.isPost && Truthy(Get(req.form, "order_number")) && SelectedLines(req.form) == {} ==>
      outcome == NoLines && db.counters == old(db.counters) && db.slips == old(db.slips)
    ensures req.isPost && Truthy(Get(req.form, "order_number")) && SelectedLines(req.form) != {} ==>
      var (c, n) := Increment(old(db.counters), QcCounter);
      var id := FormatSlipId(QcPrefix, year, n);
      var order := req.form["order_number"];
      && db.counters == c
      && |db.slips| == |old(db.slips)| + 1
      && db.slips[..|old(db.slips)|] == old(db.slips)
      && (var s := db.slips[|old(db.slips)|];
          && s.detail.QcDetail?
          && s == QcRecord(id, order, req.form, now, user, s.detail.actionedLines)
          && ActionedFor(s.detail.actionedLines, req.form, req.files, id, order, today, secure))
      && outcome == Created(id)
  {
    if !req.isPost {
      return FormShown;
    }
    var orderNumber := Get(req.form, "order_number");
    if !Truthy(orderNumber) {
      return MissingOrder;
    }
    var order := orderNumber.value;
    var lineNumbers := SelectedLines(req.form);
    if lineNumbers == {} {
      return NoLines;
    }
    var slipId := CreateQcSlip(db, req.form, req.files, order, user, year, today, now, secure);
    // The notifier's result, and any failure inside it, leaves the outcome alone.
    var _ := Email.SendQcSubmissionEmail(
      Some(slipId), Some(order), Get(req.form, "production_manager_email"), Get(req.form, "dispatch_manager_email"),
      Some(user.email), rendered, mail, sendOk);
    outcome := Created(slipId);
  }
}
