/**
 * The sequence generator behind every slip id: a named counter document that
 * an atomic upsert-and-increment bumps by one, and the `<PREFIX>-<year>-<seq>`
 * text built from the value it returns.
 */
module SlipIds {
  import opened Common

  /** The `counters` collection: sequence name to `sequence_value`. */
  type Counters = map<string, nat>

  const QcCounter := "qc_slip_id"
  const DispatchCounter := "dispatch_slip_id"
  const IrCounter := "ir_slip_id"
  const CcCounter := "cc_slip_id"

  const QcPrefix := "QC"
  const DispatchPrefix := "DIS"
  const IrPrefix := "IR"
  const CcPrefix := "CC"

  /** Which counter backs the ids of each prefix. */
  const PrefixCounters: map<string, string> :=
    map[QcPrefix := QcCounter, DispatchPrefix := DispatchCounter, IrPrefix := IrCounter, CcPrefix := CcCounter]

  /** The stored value of a counter; an absent document is the zero state. */
  function Current(c: Counters, name: string): nat {
    if name in c then c[name] else 0
  }

  /**
   * `find_one_and_update({'_id': name}, {'$inc': {'sequence_value': 1}},
   * upsert=True, return_document=True)`, as one atomic step: the new counters
   * and the value after the increment.
   */
  function Increment(c: Counters, name: string): (r: (Counters, nat))
    ensures r.1 == Current(c, name) + 1
    ensures r.0.Keys == c.Keys + {name} && Current(r.0, name) == r.1
    ensures forall k :: k != name ==> Current(r.0, k) == Current(c, k)
  {
    var v := Current(c, name) + 1;
    (c[name := v], v)
  }

  /** `k` increments of one counter in a row: the counters after them and the values issued. */
  function IncrementRun(c: Counters, name: string, k: nat): (Counters, seq<nat>)
    decreases k
  {
    if k == 0 then (c, [])
    else
      var (c1, v) := Increment(c, name);
      var (c2, vs) := IncrementRun(c1, name, k - 1);
      (c2, [v] + vs)
  }

  /**
   * Successive increments issue the contiguous run prior+1, ..., prior+k,
   * so no two of them return the same value, and no other counter moves.
   */
  lemma {:induction false} IncrementRunContiguous(c: Counters, name: string, k: nat)
    ensures var (c', vs) := IncrementRun(c, name, k);
      && |vs| == k
      && (forall i :: 0 <= i < k ==> vs[i] == Current(c, name) + 1 + i)
      && Current(c', name) == Current(c, name) + k
      && (forall other :: other != name ==> Current(c', other) == Current(c, other))
    decreases k
  {
    if k > 0 {
      var (c1, v) := Increment(c, name);
      IncrementRunContiguous(c1, name, k - 1);
    }
  }

  lemma IncrementRunDistinct(c: Counters, name: string, k: nat)
    ensures var vs := IncrementRun(c, name, k).1;
      forall i, j :: 0 <= i < j < |vs| ==> vs[i] < vs[j]
  {
    IncrementRunContiguous(c, name, k);
  }

  /** `f"{prefix}-{year}-{seq:04d}"`. */
  function FormatSlipId(prefix: string, year: nat, n: nat): string {
    prefix + "-" + Decimal(year) + "-" + Pad4(n)
  }

  datatype SlipIdParts = SlipIdParts(prefix: string, year: nat, number: nat)

  /** Reads a slip id back: text up to the first `-`, digits, `-`, digits. */
  function ParseSlipId(s: string): Option<SlipIdParts> {
    match IndexOf(s, '-')
    case None => None
    case Some(i) =>
      var rest := s[i + 1..];
      match IndexOf(rest, '-')
      case None => None
      case Some(j) =>
        var y := rest[..j];
        var q := rest[j + 1..];
        if AllDigits(y) && AllDigits(q) then Some(SlipIdParts(s[..i], DecimalValue(y), DecimalValue(q)))
        else None
  }

  lemma DigitsHaveNoDash(s: string)
    requires AllDigits(s)
    ensures '-' !in s
  {
    forall i | 0 <= i < |s| ensures s[i] != '-' {
      assert IsDigit(s[i]);
    }
  }

  /** The text after the first `-` of `a-b`, when `a` has no `-`. */
  lemma RestAfterDash(a: string, b: string)
    requires '-' !in a
    ensures IndexOf(a + ['-'] + b, '-') == Some(|a|)
    ensures (a + ['-'] + b)[|a| + 1..] == b && (a + ['-'] + b)[..|a|] == a
  {
    IndexOfAfterPrefix(a, '-', b);
    var s := a + ['-'] + b;
    assert s[|a| + 1..] == b;
    assert s[..|a|] == a;
  }

  /** Any `<prefix>-<digits>-<digits>` reads back to its three parts. */
  lemma ParseSlipIdOf(prefix: string, y: string, q: string)
    requires '-' !in prefix && AllDigits(y) && AllDigits(q)
    ensures ParseSlipId(prefix + "-" + y + "-" + q) == Some(SlipIdParts(prefix, DecimalValue(y), DecimalValue(q)))
  {
    var rest := y + ['-'] + q;
    assert prefix + "-" + y + "-" + q == prefix + ['-'] + rest;
    RestAfterDash(prefix, rest);
    DigitsHaveNoDash(y);
    RestAfterDash(y, q);
  }

  /** Every id the generator can print reads back to what it was built from. */
  lemma SlipIdRoundTrip(prefix: string, year: nat, n: nat)
    requires '-' !in prefix
    ensures ParseSlipId(FormatSlipId(prefix, year, n)) == Some(SlipIdParts(prefix, year, n))
  {
    ParseSlipIdOf(prefix, Decimal(year), Pad4(n));
    DecimalRoundTrip(year);
  }

  /** Two ids are equal only when prefix, year and sequence number all agree. */
  lemma SlipIdInjective(p1: string, y1: nat, n1: nat, p2: string, y2: nat, n2: nat)
    requires '-' !in p1 && '-' !in p2
    requires FormatSlipId(p1, y1, n1) == FormatSlipId(p2, y2, n2)
    ensures p1 == p2 && y1 == y2 && n1 == n2
  {
    SlipIdRoundTrip(p1, y1, n1);
    SlipIdRoundTrip(p2, y2, n2);
  }

  /** `next("cc_slip_id")` returning 7 in 2025 prints CC-2025-0007. */
  lemma FormatExample()
    ensures FormatSlipId(CcPrefix, 2025, 7) == "CC-2025-0007"
  {
    assert Decimal(2025) == "2025" by {
      assert Decimal(2) == "2";
      assert Decimal(20) == "20";
      assert Decimal(202) == "202";
    }
    assert Pad4(7) == "0007" by {
      assert Decimal(7) == "7";
      assert Zeros(3) == "000";
    }
  }

  /**
   * An id counts as issued when it reads back with a known prefix and a
   * sequence number its counter has already reached.
   */
  predicate Issued(c: Counters, id: string) {
    match ParseSlipId(id)
    case None => false
    case Some(p) => p.prefix in PrefixCounters && p.number <= Current(c, PrefixCounters[p.prefix])
  }

  /** Incrementing a counter keeps every issued id issued. */
  lemma IssuedMonotone(c: Counters, name: string, id: string)
    requires Issued(c, id)
    ensures Issued(Increment(c, name).0, id)
  {
  }

  /**
   * The id printed from a fresh increment is issued afterwards and differs
   * from every id issued before it, whatever the year: the counter is not
   * keyed by year, so the number alone tells them apart.
   */
  lemma MintedIdFresh(c: Counters, prefix: string, year: nat, old_id: string)
    requires prefix in PrefixCounters
    requires Issued(c, old_id)
    ensures var (c', n) := Increment(c, PrefixCounters[prefix]);
      Issued(c', FormatSlipId(prefix, year, n)) && FormatSlipId(prefix, year, n) != old_id
  {
    var (c', n) := Increment(c, PrefixCounters[prefix]);
    assert '-' !in prefix;
    SlipIdRoundTrip(prefix, year, n);
  }

  /** The id printed from an increment is issued by the counter it came from. */
  lemma MintedIdIssued(c: Counters, prefix: string, year: nat)
    requires prefix in PrefixCounters
    ensures var (c', n) := Increment(c, PrefixCounters[prefix]);
      Issued(c', FormatSlipId(prefix, year, n))
  {
    var (c', n) := Increment(c, PrefixCounters[prefix]);
    assert '-' !in prefix;
    SlipIdRoundTrip(prefix, year, n);
  }
}
