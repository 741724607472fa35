/**
 * The server-side verification pipeline of server/controllers/license.controller.js
 * (`verifyLicense`, and the validation and defaulting of `create`).  The
 * pipeline threads five mutable variables through sequential checks; later
 * checks overwrite the status and messages that earlier ones set.  The same
 * pipeline, with different null handling on the way in, is used by the direct
 * database service.  Instants are milliseconds since the epoch.
 */
module Controller {
  import opened Common
  import opened Types

  /** What the pipeline reads from a license.  The seat fields are JavaScript values; `unset` is
      the value the seat rule's guard tests the limit against (`!== null` in the controller,
      `!== undefined` in the direct database service). */
  datatype PipelineInput = PipelineInput(
    licenseType: string,
    expiry: Option<int>,
    graceDays: int,
    maxUsers: JsNumber,
    currentUsers: JsNumber,
    macs: Option<seq<string>>,
    countries: Option<seq<string>>,
    unset: JsNumber)

  predicate HasItems(xs: Option<seq<string>>) {
    xs.Some? && |xs.value| > 0
  }

  predicate Lapsed(p: PipelineInput, now: int) {
    p.expiry.Some? && p.expiry.value < now
  }

  /** setDate(getDate() + grace) on the expiry, with every day 86 400 000 ms long. */
  predicate InGrace(p: PipelineInput, now: int) {
    Lapsed(p, now) && now <= p.expiry.value + p.graceDays * DayMs
  }

  predicate PastGrace(p: PipelineInput, now: int) {
    Lapsed(p, now) && now > p.expiry.value + p.graceDays * DayMs
  }

  function DaysLeft(p: PipelineInput, now: int): int
    requires p.expiry.Some?
  {
    CeilDiv(p.expiry.value - now, DayMs)
  }

  predicate ExpiringSoon(p: PipelineInput, now: int) {
    p.expiry.Some? && !Lapsed(p, now) && DaysLeft(p, now) <= 30
  }

  predicate SeatRuleApplies(p: PipelineInput) {
    (p.licenseType == UserCountBased || p.licenseType == Mixed) && p.maxUsers != p.unset
  }

  predicate AtSeatLimit(p: PipelineInput) {
    SeatRuleApplies(p) && AtLeast(p.currentUsers, p.maxUsers)
  }

  predicate MacRejected(p: PipelineInput, mac: Option<string>) {
    (p.licenseType == MacBased || p.licenseType == Mixed) && Truthy(mac) && HasItems(p.macs) &&
    mac.value !in p.macs.value
  }

  predicate CountryRejected(p: PipelineInput, country: Option<string>) {
    (p.licenseType == CountryBased || p.licenseType == Mixed) && Truthy(country) && HasItems(p.countries) &&
    country.value !in p.countries.value
  }

  /** The seat message; a null or undefined field prints as "null" or "undefined". */
  function SeatMessage(p: PipelineInput): string {
    "User limit reached. License allows " + JsText(p.maxUsers) + " users, currently has "
    + JsText(p.currentUsers) + "."
  }

  function GraceMessage(p: PipelineInput, now: int): string
    requires p.expiry.Some?
  {
    "License has expired but is in grace period. Expires in "
    + IntToString(p.graceDays - CeilDiv(now - p.expiry.value, DayMs)) + " days."
  }

  function SoonMessage(p: PipelineInput, now: int): string
    requires p.expiry.Some?
  {
    "License will expire in " + IntToString(DaysLeft(p, now)) + " days."
  }

  const ExpiredMessage := "License has expired and grace period has ended."
  const MacMessage := "Device MAC address is not authorized to use this license."
  const CountryMessage := "This license is not valid in your country."

  /** The pipeline's outcome stated rule by rule: each field holds what the last rule that
      wrote it wrote. */
  function Verdict(p: PipelineInput, addUser: bool, mac: Option<string>, country: Option<string>, now: int): (r: VerificationResult)
    ensures r.errorMessage.Some? <==> !r.isValid
    ensures r.status == Expired ==> !r.isValid
    ensures r.status == Valid ==> r.isValid && r.warningMessage.None?
    ensures r.expiresIn.Some? <==> p.expiry.Some?
  {
    var blocked := addUser && AtSeatLimit(p);
    var warned := !addUser && AtSeatLimit(p);
    VerificationResult(
      !PastGrace(p, now) && !blocked && !MacRejected(p, mac) && !CountryRejected(p, country),
      if warned then Some(SeatMessage(p))
      else if InGrace(p, now) then Some(GraceMessage(p, now))
      else if ExpiringSoon(p, now) then Some(SoonMessage(p, now))
      else None,
      if CountryRejected(p, country) then Some(CountryMessage)
      else if MacRejected(p, mac) then Some(MacMessage)
      else if blocked then Some(SeatMessage(p))
      else if PastGrace(p, now) then Some(ExpiredMessage)
      else None,
      if p.expiry.Some? then Some(DaysLeft(p, now)) else None,
      if CountryRejected(p, country) || MacRejected(p, mac) || blocked then Expired
      else if warned then Warning
      else if PastGrace(p, now) then Expired
      else if InGrace(p, now) || ExpiringSoon(p, now) then Warning
      else Valid)
  }

  /** The expiry rule's outcome, starting from a positive verdict with status 'valid': past
      the grace period the verdict is negative; within it, or on the last 30 days, it warns. */
  function ExpiryStage(p: PipelineInput, now: int): VerificationResult {
    VerificationResult(
      !PastGrace(p, now),
      if InGrace(p, now) then Some(GraceMessage(p, now)) else if ExpiringSoon(p, now) then Some(SoonMessage(p, now)) else None,
      if PastGrace(p, now) then Some(ExpiredMessage) else None,
      if p.expiry.Some? then Some(DaysLeft(p, now)) else None,
      if PastGrace(p, now) then Expired else if InGrace(p, now) || ExpiringSoon(p, now) then Warning else Valid)
  }

  /** The seat rule's outcome on `s`: at the limit a claim fails and a status check warns. */
  function SeatStage(s: VerificationResult, p: PipelineInput, addUser: bool): VerificationResult {
    if addUser && AtSeatLimit(p) then s.(isValid := false, status := Expired, errorMessage := Some(SeatMessage(p)))
    else if AtSeatLimit(p) then s.(status := Warning, warningMessage := Some(SeatMessage(p)))
    else s
  }

  /** A membership rule's outcome on `s`: a rejection turns the verdict negative with status
      'expired' and the rule's message. */
  function RejectStage(s: VerificationResult, rejected: bool, message: string): VerificationResult {
    if rejected then s.(isValid := false, status := Expired, errorMessage := Some(message)) else s
  }

  /** The rule-by-rule verdict is the four rules applied in turn. */
  lemma VerdictComposes(p: PipelineInput, addUser: bool, mac: Option<string>, country: Option<string>, now: int)
    ensures Verdict(p, addUser, mac, country, now) ==
            RejectStage(RejectStage(SeatStage(ExpiryStage(p, now), p, addUser), MacRejected(p, mac), MacMessage),
                        CountryRejected(p, country), CountryMessage)
  {
  }

  /** The decision pipeline of verifyLicense: the expiry rule, the seat rule, then the MAC and
      country rules, each overwriting what the earlier ones set. */
  method Evaluate(p: PipelineInput, addUser: bool, mac: Option<string>, country: Option<string>, now: int)
    returns (r: VerificationResult)
    ensures r == Verdict(p, addUser, mac, country, now)
  {
    r := ApplyExpiryRule(p, now);
    r := ApplySeatRule(r, p, addUser);
    r := ApplyRejection(r, (p.licenseType == MacBased || p.licenseType == Mixed) && Truthy(mac) && HasItems(p.macs),
                        p.macs, mac, MacMessage);
    r := ApplyRejection(r, (p.licenseType == CountryBased || p.licenseType == Mixed) && Truthy(country) && HasItems(p.countries),
                        p.countries, country, CountryMessage);
    VerdictComposes(p, addUser, mac, country, now);
  }

  /** The expiry rule as the controller writes it. */
  method ApplyExpiryRule(p: PipelineInput, now: int) returns (r: VerificationResult)
    ensures r == ExpiryStage(p, now)
  {
    r := VerificationResult(true, None, None, None, Valid);
    if p.expiry.Some? {
      var expiry := p.expiry.value;
      r := r.(expiresIn := Some(CeilDiv(expiry - now, DayMs)));
      if expiry < now {
        if now <= expiry + p.graceDays * DayMs {
          r := r.(status := Warning, warningMessage := Some(GraceMessage(p, now)));
        } else {
          r := r.(isValid := false, status := Expired, errorMessage := Some(ExpiredMessage));
        }
      } else if r.expiresIn.value <= 30 {
        r := r.(status := Warning, warningMessage := Some(SoonMessage(p, now)));
      }
    }
  }

  /** The seat rule as the controller writes it. */
  method ApplySeatRule(s: VerificationResult, p: PipelineInput, addUser: bool) returns (r: VerificationResult)
    ensures r == SeatStage(s, p, addUser)
  {
    r := s;
    if (p.licenseType == UserCountBased || p.licenseType == Mixed) && p.maxUsers != p.unset {
      var atLimit := AtLeast(p.currentUsers, p.maxUsers);
      if addUser && atLimit {
        r := r.(isValid := false, status := Expired, errorMessage := Some(SeatMessage(p)));
      } else if !addUser && atLimit {
        r := r.(status := Warning, warningMessage := Some(SeatMessage(p)));
      }
    }
  }

  /** A membership rule (MAC or country) as the controller writes it: it rejects when it
      applies and the value is not listed. */
  method ApplyRejection(s: VerificationResult, applies: bool, listed: Option<seq<string>>, value: Option<string>, message: string)
    returns (r: VerificationResult)
    requires applies ==> listed.Some? && value.Some?
    ensures r == RejectStage(s, applies && value.value !in listed.value, message)
  {
    r := s;
    if applies {
      if value.value !in listed.value {
        r := r.(isValid := false, status := Expired, errorMessage := Some(message));
      }
    }
  }

  /** No rule raises the verdict: the expiry rule starts from a positive one that only the end
      of the grace period lowers, and the seat and membership rules never turn a negative
      verdict positive. */
  lemma RulesOnlyLower(s: VerificationResult, p: PipelineInput, addUser: bool, rejected: bool, message: string, now: int)
    ensures ExpiryStage(p, now).isValid <==> !PastGrace(p, now)
    ensures SeatStage(s, p, addUser).isValid ==> s.isValid
    ensures RejectStage(s, rejected, message).isValid ==> s.isValid
    ensures rejected ==> !RejectStage(s, rejected, message).isValid
  {
  }

  /** Within the grace period the verdict stays positive and the countdown the warning shows is
      never negative; one millisecond after it the verdict is negative. */
  lemma GracePeriodBoundary(p: PipelineInput, now: int)
    requires p.expiry.Some? && p.graceDays >= 0
    requires p.expiry.value < now <= p.expiry.value + p.graceDays * DayMs
    ensures Verdict(p, false, None, None, now).isValid
    ensures 0 <= p.graceDays - CeilDiv(now - p.expiry.value, DayMs)
    ensures !Verdict(p, false, None, None, p.expiry.value + p.graceDays * DayMs + 1).isValid
  {
    CeilDivAtMost(now - p.expiry.value, DayMs, p.graceDays);
  }

  /** A license that has not lapsed warns on exactly its last 30 days, and reports 0..30 days. */
  lemma ExpiryWarningWindow(p: PipelineInput, now: int)
    requires p.expiry.Some? && now <= p.expiry.value
    ensures ExpiringSoon(p, now) <==> p.expiry.value - now <= 30 * DayMs
    ensures ExpiringSoon(p, now) ==> 0 <= DaysLeft(p, now) <= 30
  {
    CeilDivAtMost(p.expiry.value - now, DayMs, 30);
    CeilDivNonNegative(p.expiry.value - now, DayMs);
  }

  /** A claim at the limit is refused; the same license only warns on a status check. */
  lemma SeatLimitClaimVersusCheck(p: PipelineInput, mac: Option<string>, country: Option<string>, now: int)
    requires AtSeatLimit(p)
    requires !PastGrace(p, now) && !MacRejected(p, mac) && !CountryRejected(p, country)
    ensures !Verdict(p, true, mac, country, now).isValid
    ensures Verdict(p, false, mac, country, now).isValid && Verdict(p, false, mac, country, now).status == Warning
  {
  }

  /** A MAC or country input that is missing or empty skips its check. */
  lemma MissingInputsSkipChecks(p: PipelineInput, addUser: bool, now: int)
    ensures Verdict(p, addUser, None, None, now) == Verdict(p, addUser, Some(""), Some(""), now)
    ensures Verdict(p, addUser, None, None, now).isValid <==> !PastGrace(p, now) && !(addUser && AtSeatLimit(p))
  {
  }

  /** A lapsed license past its grace period that is at its seat limit, checked without a
      claim, is reported invalid with status 'warning': the seat warning overwrites the
      'expired' status but not the verdict. */
  lemma WarningStatusOnInvalidLicense()
    ensures var p := PipelineInput(UserCountBased, Some(0), 0, Number(1), Number(1), None, None, Null);
            var r := Verdict(p, false, None, None, DayMs);
            !r.isValid && r.status == Warning && r.errorMessage == Some(ExpiredMessage)
  {
    var p := PipelineInput(UserCountBased, Some(0), 0, Number(1), Number(1), None, None, Null);
    assert PastGrace(p, DayMs);
  }

  /** The status the pipeline evidently intends: 'expired' whenever the verdict is negative. */
  function IntendedVerdict(p: PipelineInput, addUser: bool, mac: Option<string>, country: Option<string>, now: int): (r: VerificationResult)
    ensures r.isValid <==> r.status != Expired
    ensures r.isValid == Verdict(p, addUser, mac, country, now).isValid
    ensures r.isValid ==> r == Verdict(p, addUser, mac, country, now)
  {
    var v := Verdict(p, addUser, mac, country, now);
    if v.isValid then v else v.(status := Expired)
  }

  /** A NULL `current_users` compares like 0 and prints as "null": a claim on a zero-seat row is
      refused with that text. */
  lemma NullCountOnZeroSeatRow(row: LicenseRecord, now: int)
    requires row.licenseType == UserCountBased && row.maxUsers == Some(0) && row.currentUsers.None? && row.expiry.None?
    ensures var r := Verdict(InputOf(row), true, None, None, now);
            !r.isValid && r.errorMessage == Some(SeatMessage(InputOf(row)))
    ensures JsText(InputOf(row).currentUsers) == "null"
  {
  }

  /** The seat rule may write the count: valid, a claim, and a seat rule that applies. */
  predicate Increments(p: PipelineInput, addUser: bool, mac: Option<string>, country: Option<string>, now: int) {
    Verdict(p, addUser, mac, country, now).isValid && addUser && SeatRuleApplies(p)
  }

  /** A count the pipeline increments was below the limit, so it stays within it. */
  lemma IncrementStaysWithinLimit(p: PipelineInput, mac: Option<string>, country: Option<string>, now: int)
    requires ToNumber(p.currentUsers).Some? && ToNumber(p.maxUsers).Some?
    requires Increments(p, true, mac, country, now)
    ensures ToNumber(p.currentUsers).value + 1 <= ToNumber(p.maxUsers).value
  {
  }

  /** One row of the licenses table together with its MAC and country relations. */
  datatype LicenseRecord = LicenseRecord(
    customerId: string,
    productId: string,
    productVersionId: string,
    licenseType: string,
    licenseScope: string,
    licensingPeriod: int,
    renewableAlertMessage: Option<string>,
    graceDays: int,
    expiry: Option<int>,
    maxUsers: Option<int>,
    currentUsers: Option<int>,
    macs: seq<string>,
    countries: seq<string>)

  /** The controller's view of a row: NULL columns are null, so a null `current_users` compares
      like 0, and only a NULL limit switches the seat rule off. */
  function InputOf(row: LicenseRecord): (p: PipelineInput)
    ensures ToNumber(p.currentUsers) == Some(row.currentUsers.GetOr(0))
    ensures row.currentUsers.None? ==> JsText(p.currentUsers) == "null"
    ensures SeatRuleApplies(p) <==> (row.licenseType == UserCountBased || row.licenseType == Mixed) && row.maxUsers.Some?
    ensures AtSeatLimit(p) <==> SeatRuleApplies(p) && row.currentUsers.GetOr(0) >= row.maxUsers.value
  {
    PipelineInput(row.licenseType, row.expiry, row.graceDays, FromColumn(row.maxUsers), FromColumn(row.currentUsers),
                  Some(row.macs), Some(row.countries), Null)
  }

  datatype VerifyRequest = VerifyRequest(
    licenseId: Option<string>,
    addUser: bool,
    macAddress: Option<string>,
    countryCode: Option<string>)

  datatype VerifyResponse = BadRequest(message: string) | NotFound(message: string) | Verified(result: VerificationResult)

  datatype CreateRequest = CreateRequest(
    customerId: Option<string>,
    productId: Option<string>,
    productVersionId: Option<string>,
    licenseType: Option<string>,
    licenseScope: Option<string>,
    licensingPeriod: Option<int>,
    renewableAlertMessage: Option<string>,
    gracePeriodDays: Option<int>,
    expiryDate: Option<int>,
    maxUsersAllowed: Option<int>,
    currentUsers: Option<int>,
    macAddresses: Option<seq<string>>,
    allowedCountries: Option<seq<string>>)

  datatype CreateResponse = Rejected(message: string) | Created(id: string)

  /** `value || fallback` on an optional number: missing and 0 both fall back. */
  function NumberOr(o: Option<int>, fallback: int): (n: int)
    ensures (o.Some? && o.value != 0) ==> n == o.value
    ensures (o.None? || o.value == 0) ==> n == fallback
  {
    if o.Some? && o.value != 0 then o.value else fallback
  }

  function TextOr(o: Option<string>, fallback: string): (s: string)
    ensures Truthy(o) ==> s == o.value
    ensures !Truthy(o) ==> s == fallback
  {
    if Truthy(o) then o.value else fallback
  }

  predicate Complete(req: CreateRequest) {
    Truthy(req.customerId) && Truthy(req.productId) && Truthy(req.productVersionId) && Truthy(req.licenseType)
  }

  /** The row `create` stores for a complete request. */
  function NewRecord(req: CreateRequest): (row: LicenseRecord)
    requires Complete(req)
    ensures row.licenseScope != "" && row.licensingPeriod != 0
    ensures req.licenseScope.None? ==> row.licenseScope == "local"
    ensures req.licensingPeriod.None? ==> row.licensingPeriod == 365
    ensures req.gracePeriodDays.None? ==> row.graceDays == 0
    ensures req.currentUsers.None? ==> row.currentUsers == Some(0)
    ensures row.currentUsers.Some?
  {
    LicenseRecord(req.customerId.value, req.productId.value, req.productVersionId.value, req.licenseType.value,
                  TextOr(req.licenseScope, "local"), NumberOr(req.licensingPeriod, 365), req.renewableAlertMessage,
                  NumberOr(req.gracePeriodDays, 0), req.expiryDate, req.maxUsersAllowed,
                  Some(NumberOr(req.currentUsers, 0)),
                  req.macAddresses.GetOr([]), req.allowedCountries.GetOr([]))
  }

  /** The licenses table of the server. */
  class LicenseTable {
    var rows: map<string, LicenseRecord>

    constructor ()
      ensures rows == map[]
    {
      rows := map[];
    }

    /** `create`: a request missing any of the four required fields is rejected and stores
        nothing; otherwise one row is stored under the fresh id the database assigns. */
    method Create(req: CreateRequest, newId: string) returns (resp: CreateResponse)
      requires newId !in rows
      modifies this
      ensures !Complete(req) ==>
                resp == Rejected("Customer ID, Product ID, Product Version ID and License Type are required") &&
                rows == old(rows)
      ensures Complete(req) ==> resp == Created(newId) && rows == old(rows)[newId := NewRecord(req)]
    {
      if !Truthy(req.customerId) || !Truthy(req.productId) || !Truthy(req.productVersionId) || !Truthy(req.licenseType) {
        return Rejected("Customer ID, Product ID, Product Version ID and License Type are required");
      }
      var row := LicenseRecord(
        req.customerId.value, req.productId.value, req.productVersionId.value, req.licenseType.value,
        TextOr(req.licenseScope, "local"), NumberOr(req.licensingPeriod, 365), req.renewableAlertMessage,
        NumberOr(req.gracePeriodDays, 0), req.expiryDate, req.maxUsersAllowed, Some(NumberOr(req.currentUsers, 0)),
        [], []);
      if req.macAddresses.Some? && |req.macAddresses.value| > 0 {
        row := row.(macs := req.macAddresses.value);
      }
      if req.allowedCountries.Some? && |req.allowedCountries.value| > 0 {
        row := row.(countries := req.allowedCountries.value);
      }
      assert row == NewRecord(req);
      rows := rows[newId := row];
      resp := Created(newId);
    }

    /** `verifyLicense`: 400 without an id, 404 for an unknown id, otherwise the pipeline's
        verdict; a successful claim stores `current_users + 1`. */
    method VerifyLicense(req: VerifyRequest, now: int) returns (resp: VerifyResponse)
      modifies this
      ensures !Truthy(req.licenseId) ==> resp == BadRequest("License ID is required") && rows == old(rows)
      ensures Truthy(req.licenseId) && req.licenseId.value !in old(rows) ==>
                resp == NotFound("License not found") && rows == old(rows)
      ensures Truthy(req.licenseId) && req.licenseId.value in old(rows) ==>
                var id := req.licenseId.value;
                var p := InputOf(old(rows)[id]);
                resp == Verified(Verdict(p, req.addUser, req.macAddress, req.countryCode, now)) &&
                rows == if Increments(p, req.addUser, req.macAddress, req.countryCode, now)
                        then old(rows)[id := old(rows)[id].(currentUsers := Some(old(rows)[id].currentUsers.GetOr(0) + 1))]
                        else old(rows)
    {
      if !Truthy(req.licenseId) {
        return BadRequest("License ID is required");
      }
      var id := req.licenseId.value;
      if id !in rows {
        return NotFound("License not found");
      }
      var row := rows[id];
      var p := InputOf(row);
      var r := Evaluate(p, req.addUser, req.macAddress, req.countryCode, now);
      if r.isValid && req.addUser && (row.licenseType == UserCountBased || row.licenseType == Mixed) && row.maxUsers.Some? {
        rows := rows[id := row.(currentUsers := Some(row.currentUsers.GetOr(0) + 1))];
      }
      resp := Verified(r);
    }
  }

  /** A seat-counted license created without an expiry or a user count admits its first claim,
      which raises the stored count from 0 to 1. */
  lemma FreshLicenseAdmitsFirstClaim(req: CreateRequest, mac: Option<string>, country: Option<string>, now: int)
    requires Complete(req) && req.licenseType == Some(UserCountBased)
    requires req.expiryDate.None? && req.currentUsers.None?
    requires req.maxUsersAllowed.Some? && req.maxUsersAllowed.value > 0
    ensures var p := InputOf(NewRecord(req));
            Verdict(p, true, mac, country, now).isValid && Increments(p, true, mac, country, now) &&
            p.currentUsers == Number(0)
  {
  }
}
