/**
 * The browser-side database service src/services/directDatabaseService.ts:
 * the same verification pipeline as the server controller run on the
 * caller's copy of a license, the dynamic UPDATE builders for customers and
 * licenses, and the guard that keeps customers with licenses from being
 * deleted.  The database is a class whose tables are maps; SQL statements
 * are values.
 */
module DirectDb {
  import opened Common
  import opened Types
  import opened Controller

  /** The license object verifyLicense is handed, as far as it reads it.  The two seat fields are
      JavaScript values: formatLicense copies NULL columns through as null, and an object the
      caller builds may leave them undefined. */
  datatype LicenseObject = LicenseObject(
    id: string,
    licenseType: string,
    expiryDate: Option<int>,
    gracePeriodDays: int,
    maxUsersAllowed: JsNumber,
    currentUsers: JsNumber,
    macAddresses: Option<seq<string>>,
    allowedCountries: Option<seq<string>>)

  /** formatLicense on a stored row: the seat columns are copied unchanged, so NULL is null,
      and the relations always become lists. */
  function Formatted(row: License): (o: LicenseObject)
    ensures o.id == row.id && o.licenseType == row.licenseType && o.expiryDate == row.expiryDate
    ensures o.maxUsersAllowed.Null? <==> row.maxUsersAllowed.None?
    ensures ToNumber(o.maxUsersAllowed) == Some(row.maxUsersAllowed.GetOr(0))
    ensures ToNumber(o.currentUsers) == Some(row.currentUsers.GetOr(0))
    ensures o.macAddresses.Some? && o.allowedCountries.Some?
  {
    LicenseObject(row.id, row.licenseType, row.expiryDate, row.gracePeriodDays,
                  FromColumn(row.maxUsersAllowed), FromColumn(row.currentUsers),
                  Some(row.macAddresses.GetOr([])), Some(row.allowedCountries.GetOr([])))
  }

  /** The pipeline's view of the object: the seat rule applies unless the limit is undefined
      (`!== undefined`), and null takes part in `>=` as 0. */
  function PipelineOf(l: LicenseObject): (p: PipelineInput)
    ensures SeatRuleApplies(p) <==> (l.licenseType == UserCountBased || l.licenseType == Mixed) && !l.maxUsersAllowed.Undefined?
    ensures AtSeatLimit(p) <==> SeatRuleApplies(p) && AtLeast(l.currentUsers, l.maxUsersAllowed)
    ensures SeatMessage(p) == "User limit reached. License allows " + JsText(l.maxUsersAllowed) + " users, currently has "
                              + JsText(l.currentUsers) + "."
    ensures p.expiry == l.expiryDate && p.macs == l.macAddresses && p.countries == l.allowedCountries
  {
    PipelineInput(l.licenseType, l.expiryDate, l.gracePeriodDays, l.maxUsersAllowed, l.currentUsers,
                  l.macAddresses, l.allowedCountries, Undefined)
  }

  /** A bound parameter of a prepared statement. */
  datatype Param = Str(s: string) | Num(n: int) | Day(instant: int) | SqlNull   // Day: the date part of the instant's ISO text

  datatype Statement = Statement(sql: string, params: seq<Param>)

  /** One row of license_verification_logs: the license, the verdict and `errorMessage || warningMessage`. */
  datatype LogEntry = LogEntry(licenseId: string, isValid: bool, message: Option<string>)

  /** A candidate column of an UPDATE: whether the patch sets it, and the value bound for it. */
  datatype Field = Field(column: string, present: bool, value: Param)

  /** The candidates a patch sets, in column order. */
  function Present(fs: seq<Field>): (r: seq<Field>)
    ensures |r| <= |fs|
    ensures forall i :: 0 <= i < |r| ==> r[i].present && r[i] in fs
    ensures forall i :: 0 <= i < |fs| && fs[i].present ==> fs[i] in r
  {
    if fs == [] then [] else
      var init := Present(fs[..|fs| - 1]);
      var last := fs[|fs| - 1];
      assert fs == fs[..|fs| - 1] + [last];
      if last.present then init + [last] else init
  }

  lemma PresentEmptyIffNoneSet(fs: seq<Field>)
    ensures Present(fs) == [] <==> forall i :: 0 <= i < |fs| ==> !fs[i].present
  {
  }

  function Assignments(fs: seq<Field>): (r: seq<string>)
    ensures |r| == |fs|
  {
    seq(|fs|, i requires 0 <= i < |fs| => fs[i].column + " = ?")
  }

  function Values(fs: seq<Field>): (r: seq<Param>)
    ensures |r| == |fs|
  {
    seq(|fs|, i requires 0 <= i < |fs| => fs[i].value)
  }

  /** `UPDATE <table> SET <a, b, …> WHERE id = ?`. */
  function UpdateSql(table: string, updates: seq<string>): string {
    "UPDATE " + table + " SET " + Join(updates, ", ") + " WHERE id = ?"
  }

  /** The fields of updateCustomer; every one of them is set only when it is truthy. */
  datatype CustomerPatch = CustomerPatch(
    name: Option<string>,
    location: Option<string>,
    country: Option<string>,
    contact: Option<string>,
    mobile: Option<string>,
    email: Option<string>)

  function TextField(column: string, v: Option<string>): Field {
    Field(column, Truthy(v), Str(v.GetOr("")))
  }

  function CustomerFields(patch: CustomerPatch): (fs: seq<Field>)
    ensures |fs| == 6
  {
    [TextField("name", patch.name), TextField("location", patch.location), TextField("country", patch.country),
     TextField("contact", patch.contact), TextField("mobile", patch.mobile), TextField("email", patch.email)]
  }

  /** Push one assignment and one parameter per field that the patch sets. */
  method PushIfPresent(updates: seq<string>, params: seq<Param>, f: Field) returns (u: seq<string>, q: seq<Param>)
    ensures u == updates + Assignments(Present([f])) && q == params + Values(Present([f]))
  {
    assert [f][..0] == [];
    u, q := updates, params;
    if f.present {
      u := u + [f.column + " = ?"];
      q := q + [f.value];
    }
  }

  lemma PresentSnoc(fs: seq<Field>, f: Field)
    ensures Present(fs + [f]) == Present(fs) + Present([f])
  {
    assert (fs + [f])[..|fs|] == fs;
    assert [f][..0] == [];
  }

  /** One more field of the list adds its own assignment and value, if any, at the end. */
  lemma PresentStep(fs: seq<Field>, k: nat)
    requires k < |fs|
    ensures Assignments(Present(fs[..k + 1])) == Assignments(Present(fs[..k])) + Assignments(Present([fs[k]]))
    ensures Values(Present(fs[..k + 1])) == Values(Present(fs[..k])) + Values(Present([fs[k]]))
  {
    assert fs[..k + 1] == fs[..k] + [fs[k]];
    PresentSnoc(fs[..k], fs[k]);
  }

  /** The `if (field) { updates.push(...); params.push(...) }` sequence over a list of fields:
      one assignment and one parameter per present field, in order. */
  method PushPresent(fs: seq<Field>) returns (updates: seq<string>, params: seq<Param>)
    ensures updates == Assignments(Present(fs)) && params == Values(Present(fs))
  {
    updates, params := [], [];
    var k := 0;
    while k < |fs|
      invariant 0 <= k <= |fs|
      invariant updates == Assignments(Present(fs[..k])) && params == Values(Present(fs[..k]))
    {
      PresentStep(fs, k);
      updates, params := PushIfPresent(updates, params, fs[k]);
      k := k + 1;
    }
    assert fs[..|fs|] == fs;
  }

  /** The list-building part of updateCustomer: the assignments of the truthy fields in column
      order, then one parameter per assignment and the id last. */
  method BuildCustomerUpdate(id: string, patch: CustomerPatch) returns (updates: seq<string>, params: seq<Param>)
    ensures updates == Assignments(Present(CustomerFields(patch)))
    ensures params == Values(Present(CustomerFields(patch))) + [Str(id)]
    ensures |params| == |updates| + 1 && params[|updates|] == Str(id)
  {
    updates, params := PushPresent(CustomerFields(patch));
    params := params + [Str(id)];
  }

  /** updateCustomer as written: the UPDATE is issued whatever the patch sets. */
  function CustomerUpdateAsWritten(id: string, patch: CustomerPatch): (s: Statement)
    ensures var fs := Present(CustomerFields(patch));
            |s.params| == |fs| + 1 && s.params[|fs|] == Str(id) &&
            forall i :: 0 <= i < |fs| ==> s.params[i] == fs[i].value && fs[i].present
  {
    var fs := Present(CustomerFields(patch));
    Statement(UpdateSql("customers", Assignments(fs)), Values(fs) + [Str(id)])
  }

  /** A patch that sets nothing yields a statement with an empty SET list, which is not SQL. */
  lemma EmptyCustomerPatchIsMalformed(id: string)
    ensures var s := CustomerUpdateAsWritten(id, CustomerPatch(None, None, None, None, None, None));
            s.sql == "UPDATE customers SET " + " WHERE id = ?" && s.params == [Str(id)]
  {
    var fs := CustomerFields(CustomerPatch(None, None, None, None, None, None));
    PresentEmptyIffNoneSet(fs);
  }

  /** updateCustomer with the guard updateLicense has: no statement unless some field is set. */
  function CustomerUpdate(id: string, patch: CustomerPatch): (s: Option<Statement>)
    ensures s.None? <==> Present(CustomerFields(patch)) == []
    ensures s.Some? ==> s.value == CustomerUpdateAsWritten(id, patch) && |s.value.params| >= 2
  {
    var fs := Present(CustomerFields(patch));
    if fs == [] then None else Some(CustomerUpdateAsWritten(id, patch))
  }

  /** The guarded builder issues a statement exactly when some customer field is truthy. */
  lemma CustomerUpdateIssuedIffFieldSet(id: string, patch: CustomerPatch)
    ensures CustomerUpdate(id, patch).Some? <==>
            Truthy(patch.name) || Truthy(patch.location) || Truthy(patch.country) ||
            Truthy(patch.contact) || Truthy(patch.mobile) || Truthy(patch.email)
  {
    var fs := CustomerFields(patch);
    PresentEmptyIffNoneSet(fs);
    assert fs[0].present == Truthy(patch.name) && fs[1].present == Truthy(patch.location);
    assert fs[2].present == Truthy(patch.country) && fs[3].present == Truthy(patch.contact);
    assert fs[4].present == Truthy(patch.mobile) && fs[5].present == Truthy(patch.email);
  }

  /** The fields of updateLicense; None is `undefined`.  The identifiers, type, scope and expiry
      are set only when truthy, the numbers and the alert message whenever they are defined. */
  datatype LicensePatch = LicensePatch(
    customerId: Option<string>,
    productId: Option<string>,
    productVersionId: Option<string>,
    licenseType: Option<string>,
    licenseScope: Option<string>,
    licensingPeriod: Option<int>,
    renewableAlertMessage: Option<string>,
    gracePeriodDays: Option<int>,
    expiryDate: Option<int>,
    maxUsersAllowed: JsNumber,
    currentUsers: JsNumber,
    macAddresses: Option<seq<string>>,
    allowedCountries: Option<seq<string>>)

  /** A seat field is written whenever it is not undefined; null is bound as SQL NULL. */
  function DefinedSeat(column: string, v: JsNumber): Field {
    Field(column, !v.Undefined?, if v.Number? then Num(v.n) else SqlNull)
  }

  /** The stored column after `column = ?` bound to `v`, when `v` is written at all. */
  function Written(v: JsNumber, stored: Option<int>): (c: Option<int>)
    ensures v.Undefined? ==> c == stored
    ensures v.Null? ==> c.None?
    ensures v.Number? ==> c == Some(v.n)
  {
    match v
    case Undefined => stored
    case Null => None
    case Number(n) => Some(n)
  }

  function DefinedText(column: string, v: Option<string>): Field {
    Field(column, v.Some?, Str(v.GetOr("")))
  }

  function DefinedNumber(column: string, v: Option<int>): Field {
    Field(column, v.Some?, Num(v.GetOr(0)))
  }

  function LicenseFields(patch: LicensePatch): (fs: seq<Field>)
    ensures |fs| == 11
  {
    [TextField("customer_id", patch.customerId), TextField("product_id", patch.productId),
     TextField("product_version_id", patch.productVersionId), TextField("license_type", patch.licenseType),
     TextField("license_scope", patch.licenseScope), DefinedNumber("licensing_period", patch.licensingPeriod),
     DefinedText("renewable_alert_message", patch.renewableAlertMessage),
     DefinedNumber("grace_period_days", patch.gracePeriodDays),
     Field("expiry_date", patch.expiryDate.Some?, Day(patch.expiryDate.GetOr(0))),
     DefinedSeat("max_users_allowed", patch.maxUsersAllowed), DefinedSeat("current_users", patch.currentUsers)]
  }

  /** The UPDATE of updateLicense; none when the patch sets no column. */
  function LicenseUpdate(id: string, patch: LicensePatch): (s: Option<Statement>)
    ensures s.None? <==> Present(LicenseFields(patch)) == []
    ensures s.Some? ==> |s.value.params| == |Present(LicenseFields(patch))| + 1 && s.value.params[|s.value.params| - 1] == Str(id)
  {
    var fs := Present(LicenseFields(patch));
    if fs == [] then None else Some(Statement(UpdateSql("licenses", Assignments(fs)), Values(fs) + [Str(id)]))
  }

  /** The list-building part of updateLicense; the id is pushed only when there is an update. */
  method BuildLicenseUpdate(id: string, patch: LicensePatch) returns (s: Option<Statement>)
    ensures s == LicenseUpdate(id, patch)
  {
    var updates, params := PushPresent(LicenseFields(patch));
    if |updates| > 0 {
      params := params + [Str(id)];
      s := Some(Statement(UpdateSql("licenses", updates), params));
    } else {
      s := None;
    }
  }

  /** The row after the UPDATE and the replacement of the MAC and country relations.  Only the
      UTC date of a new expiry is written, so it is stored as that day's midnight. */
  function Patched(l: License, patch: LicensePatch): License {
    l.(customerId := if Truthy(patch.customerId) then patch.customerId.value else l.customerId,
       productId := if Truthy(patch.productId) then patch.productId.value else l.productId,
       productVersionId := if Truthy(patch.productVersionId) then patch.productVersionId.value else l.productVersionId,
       licenseType := if Truthy(patch.licenseType) then patch.licenseType.value else l.licenseType,
       licenseScope := if Truthy(patch.licenseScope) then patch.licenseScope.value else l.licenseScope,
       licensingPeriod := patch.licensingPeriod.GetOr(l.licensingPeriod),
       renewableAlertMessage := patch.renewableAlertMessage.GetOr(l.renewableAlertMessage),
       gracePeriodDays := patch.gracePeriodDays.GetOr(l.gracePeriodDays),
       expiryDate := if patch.expiryDate.Some? then Some(DayStart(patch.expiryDate.value)) else l.expiryDate,
       maxUsersAllowed := Written(patch.maxUsersAllowed, l.maxUsersAllowed),
       currentUsers := Written(patch.currentUsers, l.currentUsers),
       macAddresses := if patch.macAddresses.Some? then patch.macAddresses else l.macAddresses,
       allowedCountries := if patch.allowedCountries.Some? then patch.allowedCountries else l.allowedCountries)
  }

  /** Applying the same patch twice is applying it once. */
  lemma PatchIdempotent(l: License, patch: LicensePatch)
    ensures Patched(Patched(l, patch), patch) == Patched(l, patch)
  {
  }

  /** The stored expiry is the start of the patched instant's UTC day, so a check later on that
      same day finds the license lapsed although the instant it was given lies ahead. */
  lemma ExpiryStoredAsDay(l: License, patch: LicensePatch, now: int)
    requires patch.expiryDate.Some? && DayStart(patch.expiryDate.value) < now <= patch.expiryDate.value
    ensures var stored := Patched(l, patch).expiryDate;
            stored == Some(DayStart(patch.expiryDate.value)) && stored.value < now
    ensures Lapsed(PipelineOf(Formatted(Patched(l, patch))), now)
  {
  }

  /** A null limit is written: the UPDATE binds SQL NULL and the stored limit becomes NULL. */
  lemma NullLimitIsWritten(id: string, l: License, patch: LicensePatch)
    requires patch.maxUsersAllowed.Null?
    ensures LicenseUpdate(id, patch).Some? && SqlNull in LicenseUpdate(id, patch).value.params
    ensures Patched(l, patch).maxUsersAllowed.None?
  {
    var fs := LicenseFields(patch);
    assert fs[9].present && fs[9] in Present(fs);
    PresentEmptyIffNoneSet(fs);
    var ps := Present(fs);
    var k :| 0 <= k < |ps| && ps[k] == fs[9];
    assert LicenseUpdate(id, patch).value.params[k] == SqlNull;
  }

  /** A patch without any defined field issues no UPDATE and leaves the row as it was. */
  lemma EmptyPatchChangesNothing(id: string, l: License)
    ensures var none := LicensePatch(None, None, None, None, None, None, None, None, None, Undefined, Undefined, None, None);
            LicenseUpdate(id, none).None? && Patched(l, none) == l
  {
    PresentEmptyIffNoneSet(LicenseFields(LicensePatch(None, None, None, None, None, None, None, None, None, Undefined, Undefined, None, None)));
  }

  /** A count of 0 is written (it is defined), unlike an empty customer id (it is falsy). */
  lemma ZeroNumbersAreWritten(id: string, l: License, patch: LicensePatch)
    requires patch.currentUsers == Number(0)
    ensures LicenseUpdate(id, patch).Some? && Patched(l, patch).currentUsers == Some(0)
  {
    var fs := LicenseFields(patch);
    assert fs[10].present;
    PresentEmptyIffNoneSet(fs);
  }

  datatype Outcome = Done | Failed(message: string)

  predicate HasLicenses(licenses: map<string, License>, customerId: string) {
    exists l :: l in licenses && licenses[l].customerId == customerId
  }

  /** The tables the service reads and writes. */
  class Database {
    var customers: map<string, Customer>
    var licenses: map<string, License>   // stored rows; a None seat column is NULL
    var log: seq<LogEntry>

    constructor ()
      ensures customers == map[] && licenses == map[] && log == []
    {
      customers, licenses, log := map[], map[], [];
    }

    /** Every license belongs to a stored customer. */
    predicate Owned()
      reads this
    {
      forall l :: l in licenses ==> licenses[l].customerId in customers
    }

    /** deleteCustomer: refused while a license refers to the customer, so ownership is kept. */
    method DeleteCustomer(id: string) returns (r: Outcome)
      modifies this
      ensures r.Failed? <==> HasLicenses(old(licenses), id)
      ensures r.Failed? ==> r.message == "Cannot delete customer with existing licenses" && customers == old(customers)
      ensures r.Done? ==> customers == old(customers) - {id}
      ensures licenses == old(licenses) && log == old(log)
      ensures old(Owned()) ==> Owned()
    {
      if exists l :: l in licenses && licenses[l].customerId == id {
        return Failed("Cannot delete customer with existing licenses");
      }
      customers := customers - {id};
      r := Done;
    }

    /** updateLicense on a stored row: the UPDATE (if any) and the relation replacement. */
    method UpdateLicense(id: string, patch: LicensePatch) returns (s: Option<Statement>)
      modifies this
      ensures s == LicenseUpdate(id, patch)
      ensures licenses == if id in old(licenses) then old(licenses)[id := Patched(old(licenses)[id], patch)] else old(licenses)
      ensures customers == old(customers) && log == old(log)
    {
      s := BuildLicenseUpdate(id, patch);
      if id in licenses {
        licenses := licenses[id := Patched(licenses[id], patch)];
      }
    }

    /** verifyLicense: the pipeline on the caller's copy, an SQL increment of the stored count
        (`current_users + 1`, which leaves NULL as NULL), and one log row per call. */
    method VerifyLicense(license: LicenseObject, addingUser: bool, mac: Option<string>, country: Option<string>, now: int)
      returns (r: VerificationResult)
      modifies this
      ensures r == Verdict(PipelineOf(license), addingUser, mac, country, now)
      ensures log == old(log) + [LogEntry(license.id, r.isValid, if r.errorMessage.Some? then r.errorMessage else r.warningMessage)]
      ensures licenses == if Increments(PipelineOf(license), addingUser, mac, country, now) && license.id in old(licenses)
                          then old(licenses)[license.id := Bumped(old(licenses)[license.id])]
                          else old(licenses)
      ensures customers == old(customers)
    {
      r := Evaluate(PipelineOf(license), addingUser, mac, country, now);
      if r.isValid && addingUser && (license.licenseType == UserCountBased || license.licenseType == Mixed) &&
         !license.maxUsersAllowed.Undefined? {
        if license.id in licenses {
          licenses := licenses[license.id := Bumped(licenses[license.id])];
        }
      }
      log := log + [LogEntry(license.id, r.isValid, if r.errorMessage.Some? then r.errorMessage else r.warningMessage)];
    }
  }

  /** The stored row after `current_users = current_users + 1`. */
  function Bumped(l: License): (b: License)
    ensures b.currentUsers.Some? <==> l.currentUsers.Some?
    ensures l.currentUsers.Some? ==> b.currentUsers.value == l.currentUsers.value + 1
    ensures b.(currentUsers := l.currentUsers) == l
  {
    l.(currentUsers := if l.currentUsers.Some? then Some(l.currentUsers.value + 1) else None)
  }

  /** The log row's `errorMessage || warningMessage`: a refusal logs its error even when a
      warning was also set, an admission logs its warning, and the message is NULL exactly for
      an admission without a warning. */
  lemma LoggedMessageOfVerdict(license: LicenseObject, addingUser: bool, mac: Option<string>, country: Option<string>, now: int)
    ensures var r := Verdict(PipelineOf(license), addingUser, mac, country, now);
            var m := if r.errorMessage.Some? then r.errorMessage else r.warningMessage;
            (!r.isValid ==> m.Some? && m == r.errorMessage) &&
            (r.isValid ==> m == r.warningMessage) &&
            (m.None? <==> r.isValid && r.warningMessage.None?)
  {
  }

  /** The check reads the caller's copy but the increment writes the stored count: a copy one
      seat below the limit admits a claim even when the stored count is already at it. */
  lemma StaleCopyCanOvershoot(license: LicenseObject, stored: License, mac: Option<string>, country: Option<string>, now: int)
    requires license.licenseType == UserCountBased && license.maxUsersAllowed.Number?
    requires license.currentUsers.Number? && license.currentUsers.n < license.maxUsersAllowed.n
    requires !PastGrace(PipelineOf(license), now)
    requires stored.currentUsers.Some? && stored.currentUsers.value >= license.maxUsersAllowed.n
    ensures Increments(PipelineOf(license), true, mac, country, now)
    ensures Bumped(stored).currentUsers.value > license.maxUsersAllowed.n
  {
  }

  /** A seat-counted row stored without a limit is still limited here: formatLicense makes the
      limit null, which is not undefined, and any count is at least null.  A claim is refused,
      the message prints "null" for the limit, and a status check warns. */
  lemma NullLimitFromDatabaseEnforced(row: License, mac: Option<string>, country: Option<string>, now: int)
    requires row.licenseType == UserCountBased || row.licenseType == Mixed
    requires row.maxUsersAllowed.None? && row.currentUsers.Some? && row.currentUsers.value >= 0
    ensures var p := PipelineOf(Formatted(row));
            var r := Verdict(p, true, mac, country, now);
            !r.isValid && r.status == Expired && JsText(Formatted(row).maxUsersAllowed) == "null"
    ensures var p := PipelineOf(Formatted(row));
            !PastGrace(p, now) && !MacRejected(p, mac) && !CountryRejected(p, country) ==>
              Verdict(p, false, mac, country, now).status == Warning &&
              Verdict(p, false, mac, country, now).warningMessage == Some(SeatMessage(p))
  {
  }

  /** An undefined current count is never at the limit, since `undefined >= n` is false, while a
      null one counts as 0 and is refused on a zero-seat license. */
  lemma UndefinedCountIsNotAtLimit(l: LicenseObject, mac: Option<string>, country: Option<string>, now: int)
    requires l.licenseType == UserCountBased && l.maxUsersAllowed == Number(0) && l.currentUsers.Undefined? && l.expiryDate.None?
    ensures Verdict(PipelineOf(l), true, mac, country, now).isValid
    ensures !Verdict(PipelineOf(l.(currentUsers := Null)), true, mac, country, now).isValid
  {
  }
}
