/**
 * The document store the workflow runs against: the slip, part, settings and
 * user documents, and the store itself with the invariants its two unique
 * indexes enforce (`slip_id` unique and sparse, `email` unique).
 */
module Documents {
  import opened Common
  import opened SlipIds

  const StatusComplete := "Complete"
  const StatusDispatched := "Dispatched"
  const StatusPendingReview := "Dispatched - Pending Review"
  const StatusOpen := "Open"

  /** The logged-in user as the handlers read it: `current_user.name` and `.email`. */
  datatype Actor = Actor(name: string, email: string)

  /** One entry of a QC slip's `actioned_lines`; every form field may be missing. */
  datatype ActionedLine = ActionedLine(
    lineNumber: string,
    partId: Option<string>,
    partDescription: Option<string>,
    miscReference: Option<string>,
    orderQty: Option<string>,
    actionQty: Option<string>,
    comment: Option<string>,
    attachments: seq<string>)

  /** The fields that depend on the kind of slip. */
  datatype Detail =
    | QcDetail(
        coaNumber: Option<string>,
        qcType: Option<string>,
        productionManagerEmail: Option<string>,
        dispatchManagerEmail: Option<string>,
        createdBy: string,
        createdByEmail: string,
        actionedLines: seq<ActionedLine>)
      /** The QC slip an admin review back-fills (`is_retroactive: True`); `created_by` is the reviewer's email. */
    | RetroactiveQcDetail(createdBy: string, comments: Option<string>)
    | DispatchDetail(createdByName: string, createdByEmail: string, attachments: seq<string>)
    | IrDetail(
        natureOfComplaint: Option<string>,
        correctiveAction: Option<string>,
        createdByName: string,
        createdByEmail: string)
    | CcDetail(complaintDetails: Option<string>, createdByName: string, createdByEmail: string)

  /** `reviewed_by` and `reviewed_at`, present once an admin has reviewed the slip. */
  datatype Review = Review(reviewedBy: string, reviewedAt: int)

  /** A document of the `slips` collection. */
  datatype Slip = Slip(
    slipId: Option<string>,
    orderNumber: Option<string>,
    status: string,
    createdAt: int,
    detail: Detail,
    review: Option<Review>)
  {
    /** The `slip_type` field. */
    function SlipType(): string {
      if detail.QcDetail? || detail.RetroactiveQcDetail? then "qc"
      else if detail.DispatchDetail? then "dispatch"
      else if detail.IrDetail? then "ir"
      else "cc"
    }
  }

  /** A document of `parts`, keyed by `stock_code`; `otherFields` are fields the sync never sets. */
  datatype Part = Part(description: Option<string>, longDescription: Option<string>, otherFields: map<string, string>)

  /**
   * `parts.update_one({'stock_code': code}, {'$set': {'stock_code': code,
   * 'description': d, 'long_description': d}}, upsert=True)`: both
   * descriptions are overwritten, every other field is kept, and a missing
   * part is created with just those fields.
   */
  function SetPartDescriptions(parts: map<string, Part>, code: string, description: Option<string>): (r: map<string, Part>)
    ensures r.Keys == parts.Keys + {code}
    ensures r[code].description == description && r[code].longDescription == description
    ensures r[code].otherFields == if code in parts then parts[code].otherFields else map[]
    ensures forall k :: k in parts && k != code ==> r[k] == parts[k]
  {
    var old_part := if code in parts then parts[code] else Part(None, None, map[]);
    parts[code := old_part.(description := description, longDescription := description)]
  }

  /** The `settings` document with `_id` `email_config`. */
  datatype EmailConfig = EmailConfig(testingMode: Option<bool>)

  /** A document of `users`. */
  datatype UserDoc = UserDoc(email: Option<string>, name: Option<string>, password: Option<string>, roles: Option<seq<string>>)

  /** The unique sparse index on `slip_id`: slips without one are exempt. */
  predicate SlipIdsUnique(slips: seq<Slip>) {
    forall i, j :: 0 <= i < j < |slips| && slips[i].slipId.Some? ==> slips[i].slipId != slips[j].slipId
  }

  /** Every stored slip id was issued by its counter. */
  predicate SlipIdsIssued(c: Counters, slips: seq<Slip>) {
    forall i :: 0 <= i < |slips| && slips[i].slipId.Some? ==> Issued(c, slips[i].slipId.value)
  }

  /** The sparse unique index lets `s` in next to `slips`. */
  predicate Admits(slips: seq<Slip>, s: Slip) {
    s.slipId.Some? ==> forall i :: 0 <= i < |slips| ==> slips[i].slipId != s.slipId
  }

  /** The unique index on `email`. */
  predicate EmailsUnique(users: seq<UserDoc>) {
    forall i, j :: 0 <= i < j < |users| ==> users[i].email != users[j].email
  }

  /**
   * Minting an id for a prefix keeps every stored id issued, and the unique
   * index admits a slip carrying the new id.
   */
  lemma MintAdmitted(c: Counters, slips: seq<Slip>, prefix: string, year: nat, s: Slip)
    requires SlipIdsIssued(c, slips)
    requires prefix in PrefixCounters
    requires s.slipId == Some(FormatSlipId(prefix, year, Increment(c, PrefixCounters[prefix]).1))
    ensures SlipIdsIssued(Increment(c, PrefixCounters[prefix]).0, slips)
    ensures Issued(Increment(c, PrefixCounters[prefix]).0, s.slipId.value)
    ensures Admits(slips, s)
  {
    var (c', n) := Increment(c, PrefixCounters[prefix]);
    forall i | 0 <= i < |slips| && slips[i].slipId.Some?
      ensures Issued(c', slips[i].slipId.value) && slips[i].slipId != s.slipId
    {
      MintedIdFresh(c, prefix, year, slips[i].slipId.value);
    }
    MintedIdIssued(c, prefix, year);
  }

  /** The `slips`, `counters`, `parts`, `settings` and `users` collections. */
  class Db {
    var counters: Counters
    var slips: seq<Slip>
    var parts: map<string, Part>
    var settings: Option<EmailConfig>
    var users: seq<UserDoc>

    ghost predicate Valid()
      reads this
    {
      SlipIdsUnique(slips) && SlipIdsIssued(counters, slips) && EmailsUnique(users)
    }

    constructor ()
      ensures Valid()
      ensures counters == map[] && slips == [] && parts == map[] && settings == None && users == []
    {
      counters, slips, parts, settings, users := map[], [], map[], None, [];
    }

    /**
     * `counters.find_one_and_update` with `$inc` and `upsert=True`,
     * returning the value after the increment.
     */
    method FindOneAndIncrement(name: string) returns (value: nat)
      requires Valid()
      modifies this`counters
      ensures Valid()
      ensures (counters, value) == Increment(old(counters), name)
    {
      var r := Increment(counters, name);
      forall i | 0 <= i < |slips| && slips[i].slipId.Some?
        ensures Issued(r.0, slips[i].slipId.value)
      {
        IssuedMonotone(counters, name, slips[i].slipId.value);
      }
      counters, value := r.0, r.1;
    }

    /**
     * `slips.insert_one(s)`; the document's `_id` is its position. The
     * precondition is what the unique sparse index would otherwise reject.
     */
    method InsertSlip(s: Slip) returns (oid: nat)
      requires Valid()
      requires Admits(slips, s) && (s.slipId.Some? ==> Issued(counters, s.slipId.value))
      modifies this`slips
      ensures Valid()
      ensures slips == old(slips) + [s] && oid == |old(slips)|
    {
      oid := |slips|;
      slips := slips + [s];
    }

    /** `slips.update_one({'_id': oid}, {'$set': {'status': …, 'reviewed_by': …, 'reviewed_at': …}})`. */
    method SetReviewed(oid: nat, status: string, review: Review)
      requires Valid() && oid < |slips|
      modifies this`slips
      ensures Valid()
      ensures slips == old(slips)[oid := old(slips)[oid].(status := status, review := Some(review))]
    {
      slips := slips[oid := slips[oid].(status := status, review := Some(review))];
    }

    /** The upserting `parts.update_one` of the sync. */
    method UpdatePart(code: string, description: Option<string>)
      requires Valid()
      modifies this`parts
      ensures Valid()
      ensures parts == SetPartDescriptions(old(parts), code, description)
    {
      parts := SetPartDescriptions(parts, code, description);
    }

    /** `users.insert_one(doc)`; the unique email index admits it. */
    method InsertUser(doc: UserDoc)
      requires Valid()
      requires forall i :: 0 <= i < |users| ==> users[i].email != doc.email
      modifies this`users
      ensures Valid()
      ensures users == old(users) + [doc]
    {
      users := users + [doc];
    }

    /** `users.update_one({'_id': oid}, {'$set': {'roles': roles, 'name': name}})`. */
    method SetUserRolesAndName(oid: nat, roles: seq<string>, name: string)
      requires Valid() && oid < |users|
      modifies this`users
      ensures Valid()
      ensures users == old(users)[oid := old(users)[oid].(roles := Some(roles), name := Some(name))]
    {
      users := users[oid := users[oid].(roles := Some(roles), name := Some(name))];
    }
  }
}
