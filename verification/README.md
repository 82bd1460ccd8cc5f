# businesshub slip workflow, in Dafny

This project models the core of businesshub, a Flask and MongoDB back office. Staff record four kinds of slips against sales orders:

- quality-control (QC) slips;
- dispatch slips;
- incident reports (IR);
- customer complaints (CC).

An administrator reviews dispatches that went out without a completed QC slip. A sync job mirrors the `PART` table of a SQL database into the `parts` collection.

The model covers:

- **The document store.** `Documents.Db` is a class whose fields are the collections the handlers change in place: `counters`, `slips`, `parts`, `settings` and `users`. Its `Valid()` invariant is what the unique indexes enforce:
  - `slip_id` is unique, and the index is sparse, so slips without one are exempt;
  - every stored `slip_id` was issued by its counter;
  - `email` is unique.

  Every handler keeps `Valid()`. This shows that the indexes never reject a write the handlers make.
- **Slip ids** (module `SlipIds`):
  - the atomic upsert-and-increment of a named counter;
  - the `<PREFIX>-<year>-<seq:04d>` text, and reading it back;
  - the facts that keep ids unique: every increment issues a new number, and the counter is not keyed by year.
- **The QC handler** (`QcRoutes`):
  - validation before any id is minted;
  - the set of selected line numbers taken from the `line_checkbox_<n>` keys;
  - one actioned line per selected line;
  - the upload loop that names each photo `{order}_{date}_L{line}_{i+1}_{name}`;
  - the insert, then a best-effort notification.
- **The dispatch handler** (`DispatchRoutes`): the QC dependency gate (`Dispatched` or `Dispatched - Pending Review`), the upload loop and the insert.
- **The admin handlers** (`AdminRoutes`):
  - the review queue;
  - the `testing_mode` toggle;
  - the dispatch review, which approves the slip and back-fills a retroactive QC slip.
- **The IR and CC handlers** (`IrRoutes`, `CcRoutes`) and their shared outcomes (`Submissions`).
- **The notifier** (`Email`):
  - the test-mode substitution in `_send_email_with_test_mode`;
  - the recipient lists of each notification.
- **The parts sync** (`Sync`): the upsert loop, its failure modes, and the `finally` that closes the SQL connection.
- **The role guard** (`Decorators`) and **the user model** (`Models`).
- **The seeding script** (`CreateUsers`).

The collaborators are parameters of the model:

- the clock, passed as a year, a date string and a timestamp;
- werkzeug's `secure_filename` and the password hash, passed as functions;
- rendered templates, passed as text, or as `None` when rendering raises;
- the outcome of `mail.send`, passed as a boolean;
- the failures of the SQL source, given by the `SqlSource` value.

A Mongo `_id` is modelled as the document's position in its collection. The core never deletes a document, so positions are stable. Its text is 24 lower-case hexadecimal digits.

As written, the code behaves as follows, and the model follows it:

- **The sync stops at the first failure.** The loop over the fetched rows sits inside one `try` (app/sync.py:23-82). The first upsert that raises ends the run, and the rows before it stay upserted. No row is skipped and then continued past.
- **The sync can raise.** `get_mongo_db()` runs before the `try` (app/sync.py:20), so a missing Mongo configuration reaches the caller as an exception. Failures of the SQL connection, the query or an upsert are caught and logged. An exception from closing the SQL connection in the `finally` is not caught; it is not modelled. No sync report is returned.
- **Counters are not per year.** A counter is keyed by slip type alone. Its numbers keep growing across years while the year part of the id changes. Ids stay unique either way, and this is proved.
- **Notifiers can raise.** `send_qc_update_email` and the IR and CC notifiers do not guard `render_template`. In the IR and CC handlers such an exception falls into the same `except` as a failed insert. The handler then reports a database error although the slip is already stored.
- **The review is two separate writes.** `review_dispatch` approves the slip with `update_one` and then inserts the retroactive QC slip with `insert_one`, with no handler around either (app/admin/routes.py:66-79). If the insert raises, the slip stays approved without a retroactive QC slip, so later dispatches for that order are still flagged.
- **The notifier ignores the admin toggle.** Test mode is read from the application config `TEST_MODE` (app/email.py:16), not from the `settings` document the admin toggle writes. The two are separate inputs of the model.

## Model

| member | source | states |
|---|---|---|
| Common.Pad4 | app/qc_module/routes.py:28 | `{seq:04d}`: all digits, reads back as `n`, length is the larger of 4 and the numeral's length; exactly four characters iff `n < 10000`, and from 1000 on it is the plain numeral (never truncated) |
| Common.LastSegment | app/qc_module/routes.py:50 | `key.split('_')[-1]`: a suffix of the key containing no separator, preceded by the separator whenever it is shorter than the key |
| Common.ReplaceCharAt | app/qc_module/routes.py:101 | `.replace('\\', '/')`: every character equal to the old one becomes the new one, every other character is kept in place |
| Common.UploadPathShape | app/qc_module/routes.py:101 | for plain relative components the recorded upload path is `uploads/<folder>/<slip id>/<name>` with backslashes turned into slashes |
| Common.PathJoin | app/qc_module/routes.py:86 | `os.path.join` as on a POSIX host (`posixpath.join`) on two parts: an absolute second part replaces the first; onto a non-empty first part not ending in `/`, a single `/` separates them |
| Common.JoinOntoSeparator | app/qc_module/routes.py:86 | the remaining case of `posixpath.join`: a relative second part joined onto an empty first part, or one ending in `/`, is appended with no separator (onto an empty first part the result is the second part) |
| Common.ParseObjectId | app/models.py:16 | `ObjectId(text)` succeeds exactly on 24 hexadecimal digits |
| Common.ObjectIdRoundTrip | app/models.py:6 | the `str(_id)` text of an id parses back to the same id |
| Common.IterationOrder | app/qc_module/routes.py:63 | iterating over a set yields every member exactly once, in an order the program cannot rely on |
| SlipIds.Increment | app/qc_module/routes.py:19-26 | `find_one_and_update` with `$inc` and upsert: returns the stored value plus one (1 for an absent counter), stores it, and leaves every other counter unchanged |
| SlipIds.IncrementRunContiguous | app/qc_module/routes.py:19-24 | `k` successive increments return the contiguous run prior+1 … prior+k, advance their counter by `k` and move no other counter |
| SlipIds.IncrementRunDistinct | app/qc_module/routes.py:19-24 | successive increments never return the same value twice |
| SlipIds.SlipIdRoundTrip | app/qc_module/routes.py:28 | a formatted `<PREFIX>-<year>-<seq>` id reads back to its prefix, year and sequence number |
| SlipIds.SlipIdInjective | app/qc_module/routes.py:28 | two ids are equal only when prefix, year and sequence number agree |
| SlipIds.FormatExample | app/cc_module/routes.py:21 | sequence 7 of the CC counter in 2025 is `CC-2025-0007` |
| SlipIds.IssuedMonotone | app/qc_module/routes.py:19-24 | an increment never un-issues an id already issued |
| SlipIds.MintedIdFresh | app/qc_module/routes.py:15-28 | the id printed from a fresh increment is issued and differs from every id issued before, in any year, because the counter never resets |
| SlipIds.MintedIdIssued | app/dispatch_module/routes.py:14-24 | the id printed from an increment is issued by the counter it came from |
| Documents.SetPartDescriptions | app/sync.py:55-59 | the `$set` upsert: the part under the stock code gets the row's description in both description fields and keeps its other fields; a new part has no other fields; every other part is unchanged |
| Documents.MintAdmitted | create_users.py:27 | a slip carrying a freshly minted id is admitted by the unique sparse `slip_id` index and every stored id stays issued |
| Documents.Db.constructor | create_users.py:26-28 | an empty store satisfies the index invariants |
| Documents.Db.FindOneAndIncrement | app/qc_module/routes.py:19-26 | the counter step on the store: new counters and the returned value are those of `Increment`, the index invariants are kept |
| Documents.Db.InsertSlip | app/qc_module/routes.py:126 | `insert_one` appends the slip and returns its `_id` (its position); the precondition is what the unique sparse index demands |
| Documents.Db.SetReviewed | app/admin/routes.py:66-69 | `update_one` with `$set` of status and review stamp changes that one slip's status and review fields only |
| Documents.Db.UpdatePart | app/sync.py:55-59 | the upsert of one part, as `SetPartDescriptions` |
| Documents.Db.InsertUser | create_users.py:80 | `insert_one` appends the user; the precondition is the unique email index |
| Documents.Db.SetUserRolesAndName | create_users.py:70-73 | `$set` of `roles` and `name` on one user, every other field and user unchanged |
| QcRoutes.SelectedLines | app/qc_module/routes.py:50 | the selected lines contain no `_`, and the selection is empty exactly when no form key starts with `line_checkbox_` |
| QcRoutes.CheckboxSelectsLine | app/qc_module/routes.py:50 | a `line_checkbox_<n>` key selects line `<n>` when `<n>` has no `_` |
| QcRoutes.SelectedLineFromCheckbox | app/qc_module/routes.py:50 | every selected line is the text after the last `_` of some form key starting with `line_checkbox_`, and a proper suffix of that key |
| QcRoutes.AttachmentsUpToComplete | app/qc_module/routes.py:90-102 | every upload with a filename has its numbered path recorded |
| QcRoutes.AttachmentsUpToSound | app/qc_module/routes.py:90-102 | every recorded path is the numbered path of one upload that has a filename |
| QcRoutes.QcAttachmentsExact | app/qc_module/routes.py:84-102 | when the first upload has a filename, a line's attachments are exactly the paths of the uploads with a filename, numbered by list position |
| QcRoutes.QcAttachmentNamesDistinct | app/qc_module/routes.py:94 | two uploads of one line at different positions get different names, whatever their original filenames |
| QcRoutes.CollectQcAttachments | app/qc_module/routes.py:84-102 | the upload loop produces the line's attachment list: empty when there is no upload or the first has no filename, otherwise one path per named upload |
| QcRoutes.EnumeratedRecords | app/qc_module/routes.py:63-104 | building one record per line while visiting each selected line once gives one record per selected line, each from that line's own fields, no line twice |
| QcRoutes.ActionLine | app/qc_module/routes.py:67-102 | one line's record: its line number, its six form fields (each possibly missing) and its attachments |
| QcRoutes.BuildActionedLines | app/qc_module/routes.py:63-104 | the loop over the selected set yields exactly one record per selected line, built from that line's fields and uploads, in unspecified order |
| QcRoutes.NextQcSlipId | app/qc_module/routes.py:15-28 | advances only the `qc_slip_id` counter and returns `QC-<year>-<pad4(n)>` for the new value `n` |
| QcRoutes.FirstQcSlipId | app/qc_module/routes.py:26-28 | the first QC id ever minted in a year is `QC-<year>-0001` |
| QcRoutes.CreateQcSlip | app/qc_module/routes.py:57-126 | mints one QC id, appends exactly one complete QC slip carrying it, the form's fields and one actioned line per selected line, and changes no stored slip |
| QcRoutes.NewQcSlip | app/qc_module/routes.py:33-147 | a GET, a missing order number or an empty selection touches neither counters nor slips; otherwise one QC slip is appended as in `CreateQcSlip` and the outcome is success whatever the notifier does |
| DispatchRoutes.FindCompleteQcFrom | app/dispatch_module/routes.py:61 | `find_one` scan: the first complete QC slip for the order at or after the start, or none there |
| DispatchRoutes.FindCompleteQc | app/dispatch_module/routes.py:61 | the first complete QC slip for the order, none exactly when no such slip is stored |
| DispatchRoutes.GateStatus | app/dispatch_module/routes.py:60-69 | `Dispatched` iff a stored slip is a QC slip with this order number and status `Complete`, `Dispatched - Pending Review` iff none is |
| DispatchRoutes.UploadsOfFromFiles | app/dispatch_module/routes.py:51-58 | every recorded dispatch path comes from one upload with a filename |
| DispatchRoutes.UploadsOfComplete | app/dispatch_module/routes.py:51-58 | every upload with a filename has its path recorded |
| DispatchRoutes.CollectDispatchUploads | app/dispatch_module/routes.py:43-58 | no paths unless the first upload has a filename; then the paths of all named uploads, each one recorded |
| DispatchRoutes.NextDispatchSlipId | app/dispatch_module/routes.py:14-24 | advances only the `dispatch_slip_id` counter and returns `DIS-<year>-<pad4(n)>` |
| DispatchRoutes.CreateDispatch | app/dispatch_module/routes.py:40-81 | mints one id and appends exactly one dispatch slip with the gate's status, judged on the slips stored before it; no stored slip changes |
| DispatchRoutes.NewDispatch | app/dispatch_module/routes.py:30-85 | a GET or a missing order number changes nothing; otherwise one dispatch slip is appended and the outcome is `Dispatched` or `PendingReview` as the gate decided |
| AdminRoutes.FlaggedOrders | app/admin/routes.py:17 | the flagged list holds exactly the stored slips whose status is `Dispatched - Pending Review`, each as many times as it is stored (as a multiset it is the pending-review part of the stored slips), and no more of them than are stored |
| AdminRoutes.EffectiveTestingMode | app/admin/routes.py:20-21 | the stored `testing_mode` when there is one; ON when the settings document or its field is absent |
| AdminRoutes.Dashboard | app/admin/routes.py:12-23 | the dashboard shows exactly the pending-review slips, each as many times as it is stored, and the effective testing mode |
| AdminRoutes.ToggledSettings | app/admin/routes.py:34-45 | after the toggle the effective mode is the negation of the one before, and the field is stored |
| AdminRoutes.ToggleTwiceRestores | app/admin/routes.py:34-45 | toggling twice restores the effective mode, now stored explicitly |
| AdminRoutes.ToggleEmailTesting | app/admin/routes.py:28-49 | writes the negated effective mode through the upsert and returns it; nothing else changes |
| AdminRoutes.ApprovedSlips | app/admin/routes.py:66-69 | the `update_one` of a review alone: the reviewed slip becomes `Dispatched` with the reviewer stamped and its other fields kept; every other slip is unchanged and no slip is added |
| AdminRoutes.ApprovalAloneKeepsGateClosed | app/admin/routes.py:66-79 | when the retroactive insert raises after the approval, a closed gate stays closed although the reviewed slip has left the review queue |
| AdminRoutes.ReviewedSlips | app/admin/routes.py:66-79 | the reviewed slip becomes `Dispatched` with the reviewer stamped and its other fields kept, whatever its prior status; exactly one QC `Complete` slip without `slip_id` is appended for its order, carrying the reviewer as `created_by`, the submitted comments, the retroactive mark and the creation time, with no review stamp; every other slip is unchanged |
| AdminRoutes.ReviewPassesGate | app/admin/routes.py:71-79 | after a review, a later dispatch for the same order passes the gate |
| AdminRoutes.ReviewKeepsOpenGates | app/admin/routes.py:66-79 | a review never closes a gate that was open for any order |
| AdminRoutes.AppendKeepsOpenGates | app/dispatch_module/routes.py:61-65 | inserting any slip never closes an open gate |
| AdminRoutes.ReviewDispatch | app/admin/routes.py:55-84 | an id that is not an ObjectId, an unknown id or a GET changes no slip; a POST on a stored slip produces `ReviewedSlips` and mints no id; when the insert raises, the approval alone (`ApprovedSlips`) stays stored and the exception escapes |
| IrRoutes.NextIrSlipId | app/ir_module/routes.py:11-22 | advances only the `ir_slip_id` counter and returns `IR-<year>-<pad4(n)>` |
| IrRoutes.IrOutcome | app/ir_module/routes.py:49-65 | a database error exactly when the insert raises or the notifier raises while rendering; never the bare form |
| IrRoutes.IrOutcomeLive | app/ir_module/routes.py:55-60 | with live delivery a stored report is a success exactly when the send succeeds, otherwise a warning |
| IrRoutes.IrOutcomeNoTestRecipient | app/ir_module/routes.py:55-60 | in test mode without a test recipient the report is stored and reported with a warning |
| IrRoutes.NewIrSlip | app/ir_module/routes.py:27-69 | every POST advances the counter, with no validation; the `Open` IR slip is appended unless the insert raises, which leaves a gap in the numbering; a GET changes nothing |
| CcRoutes.NextCcSlipId | app/cc_module/routes.py:11-21 | advances only the `cc_slip_id` counter and returns `CC-<year>-<pad4(n)>` |
| CcRoutes.CcOutcome | app/cc_module/routes.py:46-60 | a database error exactly when the insert raises or the notifier raises while rendering; never the bare form |
| CcRoutes.CcOutcomeLive | app/cc_module/routes.py:50-55 | with live delivery a stored complaint is a success exactly when the send succeeds, otherwise a warning |
| CcRoutes.CcOutcomeNoTestRecipient | app/cc_module/routes.py:50-55 | in test mode without a test recipient the complaint is stored and reported with a warning |
| CcRoutes.NewCcSlip | app/cc_module/routes.py:26-64 | every POST advances the counter, with no validation; the `Open` CC slip is appended unless the insert raises; a GET changes nothing |
| Submissions.OutcomeAfterInsert | app/ir_module/routes.py:55-65 | after a successful insert: success iff the notifier sent, a warning iff it returned False, a database error iff it raised |
| Submissions.NotifierNeverUndoesCreation | app/ir_module/routes.py:55-60 | a notifier that returns, true or false, always leaves the slip reported as created |
| Email.CcText | app/email.py:30 | an empty cc list is shown as `None` in the test-mode trace |
| Email.TestModeFooterNamesOriginals | app/email.py:31-38 | the test-mode trace contains the original To and Cc lines verbatim |
| Email.SendWithTestMode | app/email.py:13-68 | test mode without a test recipient gives False; in test mode the message goes only to the test recipient, with no cc, a `[TEST MODE] ` subject and the original addressees appended to the body; otherwise to the given recipients and cc (`[]` for none); an empty final recipient list gives False; a send failure gives False; it never raises |
| Email.TestModeReachesOnlyTestRecipient | app/email.py:24-41 | in test mode a sent message reaches nobody but the configured test recipient |
| Email.Present | app/email.py:87 | an address is listed only when it is set and non-empty |
| Email.QcSubmissionRecipients | app/email.py:86-91 | recipients are the production manager then the dispatch manager, each only when non-empty; the cc is the submitter only when non-empty |
| Email.SendQcSubmissionEmail | app/email.py:70-106 | a render failure gives a non-sent result, never an exception; otherwise the unified send with the `[QC SLIP]` subject and those recipients and cc |
| Email.QcUpdateRecipients | app/email.py:113-121 | the three candidate addresses that are set, each exactly once, no duplicates; empty exactly when none is set |
| Email.AsciiUpper | app/email.py:111 | `upper()` on ASCII: each lower-case letter becomes its upper-case letter, every other character is kept, so no lower-case letter is left |
| Email.SendQcUpdateEmail | app/email.py:108-121 | the recipients are exactly the candidate addresses that are set, each once, and there is no cc; with live delivery nothing is sent exactly when no address is set |
| Email.SendIrSubmissionEmail | app/email.py:123-129 | with live delivery the report goes to quality assurance with the fixed cc and its subject names the slip |
| Email.SendCcSubmissionEmail | app/email.py:131-137 | with live delivery the complaint goes to sales management with the fixed cc and its subject names the slip |
| Sync.LastRow | app/sync.py:43-59 | the last fetched row carrying a stock code, none exactly when no row carries it |
| Sync.SyncFoldAt | app/sync.py:43-59 | after the upserts a stock code holds the last such row's description in both description fields with its other fields kept, or its old part when no row carries it |
| Sync.SyncLeavesOthers | app/sync.py:55-59 | a part whose stock code no row carries is unchanged |
| Sync.SyncLastWriterWins | app/sync.py:43-59 | with duplicate stock codes the last row's description is stored |
| Sync.SyncIdempotent | app/sync.py:55-59 | running the sync twice over the same rows leaves what running it once did |
| Sync.RowsBeforeFailure | app/sync.py:43-60 | every row is upserted exactly when no upsert fails; otherwise exactly the rows before the failing one, which is at the failing row's index |
| Sync.UpsertRows | app/sync.py:43-62 | the loop upserts the rows in order up to the first failing one, which ends it, and counts them |
| Sync.SyncDataFromSql | app/sync.py:12-88 | raises only without a Mongo configuration; connection or query failure changes no part; fetched rows are upserted up to the first failure; an opened connection is always closed |
| Decorators.AnyHeld | app/decorators.py:23 | true exactly when some required role is held |
| Decorators.QuotedRoles | app/decorators.py:24 | each required role wrapped in single quotes, in order |
| Decorators.Guard | app/decorators.py:14-28 | anonymous users, and only they, are sent to login with the requested url; an authenticated user is admitted iff they hold `admin` or a listed role; a refusal carries the quoted-roles message and goes back to the referrer, or to the dashboard without one |
| Decorators.AdminPassesEverywhere | app/decorators.py:19-20 | `admin` passes every guard |
| Decorators.NoRolesAdminsOnly | app/decorators.py:19-26 | a guard listing no roles admits admins only |
| Decorators.MoreRolesStillAllowed | app/decorators.py:19-28 | gaining roles never turns an admission into a refusal |
| Decorators.MoreRequiredStillAllowed | app/decorators.py:23 | listing more roles on a view never locks out a user it admitted |
| Decorators.DispatchRolesJoined | app/decorators.py:24 | the roles of the dispatch form join as `'admin' or 'dispatch'` |
| Decorators.DispatchDeniedMessage | app/decorators.py:25 | the refusal on the dispatch form reads `Access Denied. This action requires the 'admin' or 'dispatch' role.` |
| Models.DisplayName | app/models.py:8 | `name` falls back to `email` when absent |
| Models.RolesOf | app/models.py:10 | `roles` defaults to the empty list |
| Models.LookupUser | app/models.py:16 | the user the id names, none exactly when the text is not an ObjectId or names no stored user |
| Models.LookupOwnId | app/models.py:6 | a user's `id` text finds that same user again |
| Models.User.constructor | app/models.py:5-10 | `id` is the text of `_id`, `email` and `password` are copied, `name` falls back to `email`, `roles` defaults to empty |
| Models.User.AsCurrentUser | app/models.py:10 | the guard sees the user as authenticated with exactly their roles |
| Models.User.Get | app/models.py:12-21 | `null` exactly when the id is not an ObjectId or names no user, otherwise a fresh `User` built from the stored document |
| Models.AdminUserPassesGuard | app/models.py:23-25 | a user whose `has_role('admin')` holds passes every guard |
| Models.HasListedRoleAdmits | app/models.py:23-25 | a non-admin user is admitted exactly when `has_role` holds for a listed role |
| CreateUsers.FindByEmailFrom | create_users.py:68 | `find_one` by email scanning from a position: the first match there, or none there |
| CreateUsers.FindByEmail | create_users.py:68 | the first stored user with the email, none exactly when no user has it |
| CreateUsers.SeedOne | create_users.py:68-80 | an existing email keeps the store's size; a new one appends exactly its hashed document; every user with another email is unchanged either way |
| CreateUsers.SeedOneKeepsExisting | create_users.py:70-74 | one pass keeps every stored user's email and password |
| CreateUsers.SeedOneStoresSeed | create_users.py:68-80 | after one pass the user with the seed's email carries the seed's roles and name |
| CreateUsers.SeedOneKeepsEmailsUnique | create_users.py:26 | one pass keeps emails unique |
| CreateUsers.SeedAllKeepsEmailsUnique | create_users.py:26 | the whole run never creates two users with one email, so the unique index never rejects an insert |
| CreateUsers.SeedAllKeepsPasswords | create_users.py:66-81 | users already stored keep their email and password; only roles and name may change |
| CreateUsers.SeedAllStoresEverySeed | create_users.py:66-81 | after the run every seed's email is stored |
| CreateUsers.SeedAllInsertsNoneWhenPresent | create_users.py:68-74 | when every seed's email is already stored, the run inserts nobody |
| CreateUsers.SeedRerunAddsNoUsers | create_users.py:66-81 | running the script a second time creates no user |
| CreateUsers.NewUserDocs | create_users.py:77-80 | one document per fresh seed, in list order, each with its password hashed |
| CreateUsers.SeedAllInsertsFresh | create_users.py:66-81 | seeds with distinct emails none of which is stored are all appended in list order with hashed passwords, and nothing stored changes |
| CreateUsers.EmptyStoreSeeding | create_users.py:32-81 | on an empty store the script inserts exactly its five users, passwords hashed |
| CreateUsers.SeedUsers | create_users.py:66-81 | the loop leaves the users of the whole run, and each list entry's password is hashed exactly when its email was not yet stored |
| CreateUsers.CreateInitialUsers | create_users.py:6-84 | runs exactly when both connection settings are set: then the five users are seeded, otherwise no user changes |

## Left out

- Routing, templates, `flash`, `redirect`, `login_required` and `request` parsing are reduced to request records and outcome values. A rendered template is opaque text, or `None` when rendering raises.
- The view handlers (`view_qc_slips`, `view_dispatches`, `view_ir_slips`, `view_cc_slips`) are left out: they only list slips of one type sorted by `created_at` for display.
- `test_email` in app/qc_module/routes.py is left out: it only calls a test notifier that is not part of this model.
- File I/O (`os.makedirs`, `file.save`) is left out. `secure_filename` is an opaque function parameter. Only the recorded path strings are modelled.
- The clock is passed in as a year, a date string and a timestamp. The password hash is a function parameter. `mail.send` is a boolean outcome. The logger is left out.
- Concurrency is not modelled. The counter increment is one atomic step, and parallel callers are not represented.
- Connection failures of `MongoClient`, and `create_index` failing on existing duplicates, are left out. The unique indexes are the `Valid()` invariant, and every write is shown to satisfy it.
- `_id` is the document's position, and `insert_one` adding `_id` to the inserted dict is not modelled.
- `QcRoutes.NewQcSlip`: does not model an `insert_one` that raises. The code does not catch it, so the request fails with the counter already advanced.
- `DispatchRoutes.NewDispatch`: does not model an `insert_one` that raises, for the same reason.
- `QcRoutes.QcAttachmentNamesDistinct`: distinctness is proved for the names of one line. Distinctness of the full paths across lines is not stated.
- `QcRoutes.BuildActionedLines`: the order of the actioned lines is left unspecified, as set iteration leaves it.
- `Email.SendQcUpdateEmail`: the recipients' order is left unspecified, as `list(set(...))` leaves it.
- `Models.User.Get`: of the exceptions the source swallows, only the failed `ObjectId` conversion is modelled. A failing `find_one` is not.
- `Sync.SyncDataFromSql`: the log messages, including the hint about an invalid column name, are not modelled. The synced count is returned instead of being logged.
- `Email.SendWithTestMode`: the attachment loop is a no-op in the source and is left out.
- `Email.AsciiUpper`: only ASCII letters are mapped. Python's `str.upper()` applies full Unicode case mapping, which can also change the length (`ß` becomes `SS`).
- `Common.PathJoin`: the path joins follow POSIX (`posixpath.join`). On a Windows host `ntpath.join` treats drive letters and backslashes differently, and that is not modelled. The case of an empty or `/`-terminated first part is stated by the lemma `Common.JoinOntoSeparator` rather than in the function's own contract: as an `ensures` it is instantiated at every join inside an upload path and makes the attachment proofs too costly for the solver.
- `Sync.SyncDataFromSql`: an exception raised by `sql_conn.close()` in the `finally` escapes to the caller. The source has no handler for it, and the model has no case for it.
