/**
 * The client-side rule set LicenseVerificationService of
 * src/services/licenseVerificationService.ts: one rule per license type, a
 * mixed rule that runs the rules whose data is present, and a dispatcher on
 * the type text.  `now` and the expiry are milliseconds since the epoch.
 */
module Rules {
  import opened Common
  import opened Types

  /** The MAC address and the country the browser-side simulation reports. */
  const SimulatedMac := "00:1A:2B:3C:4D:5E"
  const SimulatedCountry := "US"

  /** Validity and status agree: a result is 'expired' exactly when it is invalid, and only a
      valid result carries a warning. */
  predicate Coherent(r: VerificationResult) {
    (r.isValid <==> r.status != Expired) && (r.warningMessage.Some? ==> r.isValid && r.status == Warning)
  }

  function Invalid(message: string): (r: VerificationResult)
    ensures !r.isValid && r.errorMessage == Some(message) && r.status == Expired
  {
    VerificationResult(false, None, Some(message), None, Expired)
  }

  const Passed := VerificationResult(true, None, None, None, Valid)

  /** The alert text of the license, or the stock one when it is empty. */
  function AlertText(license: License): string {
    if license.renewableAlertMessage != "" then license.renewableAlertMessage else "Your license will expire soon."
  }

  function VerifyDateBased(license: License, now: int): (r: VerificationResult)
    ensures Coherent(r)
    ensures r.isValid <==> license.expiryDate.Some? && now <= license.expiryDate.value
    ensures license.expiryDate.None? ==> r == Invalid("This license does not have an expiry date.")
    ensures license.expiryDate.Some? && now > license.expiryDate.value ==>
              r == Invalid("The license has expired. Please renew your license to continue.")
    ensures r.isValid ==> r.expiresIn == Some(CeilDiv(license.expiryDate.value - now, DayMs)) && r.expiresIn.value >= 0
    ensures r.isValid ==> (r.status == Warning <==> license.expiryDate.value - now <= 30 * DayMs)
    ensures r.isValid ==> r.status != Expired && r.errorMessage.None?
  {
    match license.expiryDate
    case None => Invalid("This license does not have an expiry date.")
    case Some(expiry) =>
      var daysRemaining := CeilDiv(expiry - now, DayMs);
      CeilDivAtMost(expiry - now, DayMs, 30);
      if now > expiry then
        Invalid("The license has expired. Please renew your license to continue.")
      else
        CeilDivNonNegative(expiry - now, DayMs);
        if daysRemaining <= 30 then
          VerificationResult(true, Some(AlertText(license) + " Only " + IntToString(daysRemaining) + " days remaining."),
                             None, Some(daysRemaining), Warning)
        else
          VerificationResult(true, None, None, Some(daysRemaining), Valid)
  }

  /** A license that has not yet expired warns on exactly its last 30 days (rounded up). */
  lemma DateWarningWindow(license: License, now: int)
    requires license.expiryDate.Some?
    ensures VerifyDateBased(license, now).status == Warning <==>
            0 <= license.expiryDate.value - now <= 30 * DayMs
  {
  }

  /** The seat count after the optional claim. */
  function Projected(current: int, adding: bool): int {
    if adding then current + 1 else current
  }

  /** `projected >= max * 0.8`, with the factor written as the fraction 4/5. */
  predicate Approaching(projected: int, max: int) {
    5 * projected >= 4 * max
  }

  function VerifyUserCountBased(license: License, adding: bool): (r: VerificationResult)
    ensures Coherent(r)
    ensures r.isValid <==> license.maxUsersAllowed.Some? && license.currentUsers.Some? &&
                           Projected(license.currentUsers.value, adding) <= license.maxUsersAllowed.value
    ensures license.maxUsersAllowed.None? || license.currentUsers.None? ==>
              r == Invalid("This license does not have user count information.")
    ensures r.isValid ==> (r.status == Warning <==>
                           Approaching(Projected(license.currentUsers.value, adding), license.maxUsersAllowed.value))
    ensures r.isValid ==> r.status != Expired && r.errorMessage.None? && r.expiresIn.None?
  {
    if license.maxUsersAllowed.None? || license.currentUsers.None? then
      Invalid("This license does not have user count information.")
    else
      var current := license.currentUsers.value;
      var max := license.maxUsersAllowed.value;
      var projected := Projected(current, adding);
      if projected > max then
        Invalid("Maximum user limit (" + IntToString(max) + ") reached. Please upgrade your license to add more users.")
      else if Approaching(projected, max) then
        VerificationResult(true, Some("You are approaching your user limit. Currently using " + IntToString(current)
                                      + " of " + IntToString(max) + " licenses."), None, None, Warning)
      else
        Passed
  }

  /** A claim against a full license fails, and the same license passes a plain status check. */
  lemma ClaimOnFullLicenseFails(license: License)
    requires license.maxUsersAllowed.Some? && license.currentUsers == license.maxUsersAllowed
    ensures !VerifyUserCountBased(license, true).isValid
    ensures VerifyUserCountBased(license, false).isValid
    ensures VerifyUserCountBased(license, false).status == Warning <==> license.currentUsers.value >= 0
  {
  }

  /** Data present and non-empty, as `if (!xs || xs.length === 0)` tests it. */
  predicate HasItems(xs: Option<seq<string>>) {
    xs.Some? && |xs.value| > 0
  }

  function VerifyMacBased(license: License): (r: VerificationResult)
    ensures Coherent(r)
    ensures r.isValid <==> HasItems(license.macAddresses) && SimulatedMac in license.macAddresses.value
    ensures !HasItems(license.macAddresses) ==> r == Invalid("This license does not have MAC address information.")
    ensures r.isValid ==> r == Passed
  {
    if !HasItems(license.macAddresses) then
      Invalid("This license does not have MAC address information.")
    else if SimulatedMac !in license.macAddresses.value then
      Invalid("This device is not authorized to use this license.")
    else
      Passed
  }

  function VerifyCountryBased(license: License): (r: VerificationResult)
    ensures Coherent(r)
    ensures r.isValid <==> HasItems(license.allowedCountries) && SimulatedCountry in license.allowedCountries.value
    ensures !HasItems(license.allowedCountries) ==>
              r == Invalid("This license does not have country restriction information.")
    ensures r.isValid ==> r == Passed
  {
    if !HasItems(license.allowedCountries) then
      Invalid("This license does not have country restriction information.")
    else if SimulatedCountry !in license.allowedCountries.value then
      Invalid("This license is not valid in your current location (" + SimulatedCountry + ").")
    else
      Passed
  }

  /** The four single-purpose rules the mixed rule can run. */
  datatype Rule = DateRule | UserCountRule | MacRule | CountryRule

  function Run(rule: Rule, license: License, adding: bool, now: int): (r: VerificationResult)
    ensures Coherent(r)
  {
    match rule
    case DateRule => VerifyDateBased(license, now)
    case UserCountRule => VerifyUserCountBased(license, adding)
    case MacRule => VerifyMacBased(license)
    case CountryRule => VerifyCountryBased(license)
  }

  /** Whether the license carries the data the mixed rule tests before running a rule. */
  predicate HasData(rule: Rule, license: License) {
    match rule
    case DateRule => license.expiryDate.Some?
    case UserCountRule => license.maxUsersAllowed.Some? && license.currentUsers.Some?
    case MacRule => HasItems(license.macAddresses)
    case CountryRule => HasItems(license.allowedCountries)
  }

  /** The position of a rule in the mixed rule's order: date, seats, MAC, country. */
  function Rank(rule: Rule): nat {
    match rule
    case DateRule => 0
    case UserCountRule => 1
    case MacRule => 2
    case CountryRule => 3
  }

  /** The rules with data, in the order date, seats, MAC, country. */
  function ApplicableRules(license: License): (rules: seq<Rule>)
    ensures forall rule :: rule in rules <==> HasData(rule, license)
    ensures forall i, j :: 0 <= i < j < |rules| ==> Rank(rules[i]) < Rank(rules[j])
    ensures HasData(DateRule, license) ==> rules[0] == DateRule
  {
    (if HasData(DateRule, license) then [DateRule] else [])
    + (if HasData(UserCountRule, license) then [UserCountRule] else [])
    + (if HasData(MacRule, license) then [MacRule] else [])
    + (if HasData(CountryRule, license) then [CountryRule] else [])
  }

  /** The results of the applicable rules, in that order. */
  function Applicable(license: License, adding: bool, now: int): (rs: seq<VerificationResult>)
    ensures var rules := ApplicableRules(license);
            |rs| == |rules| && forall i :: 0 <= i < |rs| ==> rs[i] == Run(rules[i], license, adding, now)
  {
    var rules := ApplicableRules(license);
    seq(|rules|, i requires 0 <= i < |rules| => Run(rules[i], license, adding, now))
  }

  /** `filter(p)[0]` when the filtered list is not empty. */
  function First(rs: seq<VerificationResult>, p: VerificationResult -> bool): (r: Option<VerificationResult>)
    ensures r.None? <==> forall i :: 0 <= i < |rs| ==> !p(rs[i])
    ensures r.Some? ==> exists i :: 0 <= i < |rs| && rs[i] == r.value && p(r.value) &&
                                    forall j :: 0 <= j < i ==> !p(rs[j])
    decreases |rs|
  {
    if rs == [] then None
    else if p(rs[0]) then Some(rs[0])
    else
      var r := First(rs[1..], p);
      assert forall i :: 1 <= i < |rs| ==> rs[i] == rs[1..][i - 1];
      if r.Some? then
        assert exists i :: 0 <= i < |rs| && rs[i] == r.value && p(r.value) &&
                           forall j :: 0 <= j < i ==> !p(rs[j]) by {
          var k :| 0 <= k < |rs[1..]| && rs[1..][k] == r.value && p(r.value) &&
                   forall j :: 0 <= j < k ==> !p(rs[1..][j]);
          assert rs[k + 1] == r.value;
          assert forall j :: 1 <= j < k + 1 ==> rs[j] == rs[1..][j - 1];
        }
        r
      else r
  }

  predicate Failed(r: VerificationResult) { !r.isValid }

  predicate Warned(r: VerificationResult) { r.status == Warning }

  /** The first failed result, else the first warning, else a plain pass. */
  function Combine(rs: seq<VerificationResult>): (r: VerificationResult)
    ensures r.isValid <==> forall i :: 0 <= i < |rs| ==> rs[i].isValid
    ensures !r.isValid ==> exists i :: 0 <= i < |rs| && rs[i] == r && forall j :: 0 <= j < i ==> rs[j].isValid
    ensures r.isValid && (exists i :: 0 <= i < |rs| && rs[i].status == Warning) ==>
              exists i :: 0 <= i < |rs| && rs[i] == r && r.status == Warning &&
                          forall j :: 0 <= j < i ==> rs[j].status != Warning
    ensures (forall i :: 0 <= i < |rs| ==> rs[i].isValid && rs[i].status != Warning) ==> r == Passed
  {
    match First(rs, Failed)
    case Some(f) => f
    case None =>
      match First(rs, Warned)
      case Some(w) => w
      case None => Passed
  }

  /** `rule` carries data and fails, and every rule before it in the order passes. */
  predicate FirstFailure(rule: Rule, license: License, adding: bool, now: int) {
    HasData(rule, license) && !Run(rule, license, adding, now).isValid &&
    forall earlier :: HasData(earlier, license) && Rank(earlier) < Rank(rule) ==> Run(earlier, license, adding, now).isValid
  }

  /** `rule` carries data and warns, and no rule before it in the order warns. */
  predicate FirstWarning(rule: Rule, license: License, adding: bool, now: int) {
    HasData(rule, license) && Run(rule, license, adding, now).status == Warning &&
    forall earlier :: HasData(earlier, license) && Rank(earlier) < Rank(rule) ==>
                        Run(earlier, license, adding, now).status != Warning
  }

  /** A rule with data has its result at its own position among the applicable results. */
  lemma PositionOf(rule: Rule, license: License, adding: bool, now: int) returns (i: nat)
    requires HasData(rule, license)
    ensures i < |ApplicableRules(license)| && ApplicableRules(license)[i] == rule
    ensures i < |Applicable(license, adding, now)| && Applicable(license, adding, now)[i] == Run(rule, license, adding, now)
  {
    var rules := ApplicableRules(license);
    i :| 0 <= i < |rules| && rules[i] == rule;
  }

  /** The combined result passes exactly when every rule with data passes. */
  lemma MixedValidIff(license: License, adding: bool, now: int)
    ensures Combine(Applicable(license, adding, now)).isValid <==>
            forall rule :: HasData(rule, license) ==> Run(rule, license, adding, now).isValid
  {
    var rules := ApplicableRules(license);
    var rs := Applicable(license, adding, now);
    if Combine(rs).isValid {
      forall rule | HasData(rule, license)
        ensures Run(rule, license, adding, now).isValid
      {
        var i := PositionOf(rule, license, adding, now);
      }
    } else {
      var i :| 0 <= i < |rs| && !rs[i].isValid;
      assert rules[i] in rules;
    }
  }

  /** A negative combined result is the result of the first failing rule. */
  lemma MixedFailureIsFirst(license: License, adding: bool, now: int)
    requires !Combine(Applicable(license, adding, now)).isValid
    ensures exists rule :: FirstFailure(rule, license, adding, now) &&
                           Combine(Applicable(license, adding, now)) == Run(rule, license, adding, now)
  {
    var rules := ApplicableRules(license);
    var rs := Applicable(license, adding, now);
    var i :| 0 <= i < |rs| && rs[i] == Combine(rs) && forall j :: 0 <= j < i ==> rs[j].isValid;
    assert rules[i] in rules;
    forall earlier | HasData(earlier, license) && Rank(earlier) < Rank(rules[i])
      ensures Run(earlier, license, adding, now).isValid
    {
      var j := PositionOf(earlier, license, adding, now);
    }
    assert FirstFailure(rules[i], license, adding, now);
  }

  /** A positive combined result with some warning rule is the result of the first one. */
  lemma MixedWarningIsFirst(license: License, adding: bool, now: int)
    requires Combine(Applicable(license, adding, now)).isValid
    requires exists rule :: HasData(rule, license) && Run(rule, license, adding, now).status == Warning
    ensures exists rule :: FirstWarning(rule, license, adding, now) &&
                           Combine(Applicable(license, adding, now)) == Run(rule, license, adding, now)
  {
    var rules := ApplicableRules(license);
    var rs := Applicable(license, adding, now);
    var warned :| HasData(warned, license) && Run(warned, license, adding, now).status == Warning;
    var k := PositionOf(warned, license, adding, now);
    var i :| 0 <= i < |rs| && rs[i] == Combine(rs) && rs[i].status == Warning &&
             forall j :: 0 <= j < i ==> rs[j].status != Warning;
    assert rules[i] in rules;
    forall earlier | HasData(earlier, license) && Rank(earlier) < Rank(rules[i])
      ensures Run(earlier, license, adding, now).status != Warning
    {
      var j := PositionOf(earlier, license, adding, now);
    }
    assert FirstWarning(rules[i], license, adding, now);
  }

  /** Without a failure or a warning among the rules with data, the combined result is a plain pass. */
  lemma MixedPlainPass(license: License, adding: bool, now: int)
    requires forall rule :: HasData(rule, license) ==>
               Run(rule, license, adding, now).isValid && Run(rule, license, adding, now).status != Warning
    ensures Combine(Applicable(license, adding, now)) == Passed
  {
    var rules := ApplicableRules(license);
    var rs := Applicable(license, adding, now);
    forall i | 0 <= i < |rs|
      ensures rs[i].isValid && rs[i].status != Warning
    {
      assert rules[i] in rules;
    }
  }

  /** The mixed rule: the first failing rule's result, else the first warning rule's result,
      else a plain pass, over the rules whose data the license carries. */
  function VerifyMixed(license: License, adding: bool, now: int): (r: VerificationResult)
    ensures r.isValid <==> forall rule :: HasData(rule, license) ==> Run(rule, license, adding, now).isValid
    ensures !r.isValid ==> exists rule :: FirstFailure(rule, license, adding, now) && r == Run(rule, license, adding, now)
    ensures r.isValid && (exists rule :: HasData(rule, license) && Run(rule, license, adding, now).status == Warning) ==>
              exists rule :: FirstWarning(rule, license, adding, now) && r == Run(rule, license, adding, now)
    ensures (forall rule :: HasData(rule, license) ==>
               Run(rule, license, adding, now).isValid && Run(rule, license, adding, now).status != Warning) ==>
            r == Passed
  {
    MixedValidIff(license, adding, now);
    if !Combine(Applicable(license, adding, now)).isValid then
      MixedFailureIsFirst(license, adding, now);
      Combine(Applicable(license, adding, now))
    else if exists rule :: HasData(rule, license) && Run(rule, license, adding, now).status == Warning then
      MixedWarningIsFirst(license, adding, now);
      Combine(Applicable(license, adding, now))
    else
      MixedPlainPass(license, adding, now);
      Combine(Applicable(license, adding, now))
  }

  /** What each rule then demands of the license. */
  lemma RunPassesIff(rule: Rule, license: License, adding: bool, now: int)
    requires HasData(rule, license)
    ensures Run(rule, license, adding, now).isValid <==>
            match rule
            case DateRule => now <= license.expiryDate.value
            case UserCountRule => Projected(license.currentUsers.value, adding) <= license.maxUsersAllowed.value
            case MacRule => SimulatedMac in license.macAddresses.value
            case CountryRule => SimulatedCountry in license.allowedCountries.value
  {
  }

  /** A failed expiry outranks every later rule: the mixed result is the date rule's error. */
  lemma MixedReportsExpiryFirst(license: License, adding: bool, now: int)
    requires license.expiryDate.Some? && now > license.expiryDate.value
    ensures VerifyMixed(license, adding, now) == VerifyDateBased(license, now)
  {
    var rs := Applicable(license, adding, now);
    assert rs[0] == VerifyDateBased(license, now);
  }

  /** A mixed license whose only data is a far-away expiry passes without the remaining days the
      date rule reports. */
  lemma MixedDropsRemainingDays(license: License, adding: bool, now: int)
    requires license.expiryDate.Some? && license.expiryDate.value - now > 30 * DayMs
    requires license.maxUsersAllowed.None? && !HasItems(license.macAddresses) && !HasItems(license.allowedCountries)
    ensures VerifyDateBased(license, now).expiresIn.Some?
    ensures VerifyMixed(license, adding, now).expiresIn.None?
  {
    assert ApplicableRules(license) == [DateRule];
    assert Applicable(license, adding, now) == [VerifyDateBased(license, now)];
  }

  /** The dispatcher on the license type; any other text is refused. */
  function VerifyLicense(license: License, adding: bool, now: int): (r: VerificationResult)
    ensures license.licenseType == DateBased ==> r == VerifyDateBased(license, now)
    ensures license.licenseType == UserCountBased ==> r == VerifyUserCountBased(license, adding)
    ensures license.licenseType == MacBased ==> r == VerifyMacBased(license)
    ensures license.licenseType == CountryBased ==> r == VerifyCountryBased(license)
    ensures license.licenseType == Mixed ==> r == VerifyMixed(license, adding, now)
    ensures license.licenseType !in {DateBased, UserCountBased, MacBased, CountryBased, Mixed} ==>
              r == Invalid("Unknown license type.")
  {
    if license.licenseType == DateBased then VerifyDateBased(license, now)
    else if license.licenseType == UserCountBased then VerifyUserCountBased(license, adding)
    else if license.licenseType == MacBased then VerifyMacBased(license)
    else if license.licenseType == CountryBased then VerifyCountryBased(license)
    else if license.licenseType == Mixed then VerifyMixed(license, adding, now)
    else Invalid("Unknown license type.")
  }

  /** Combining coherent results gives a coherent result. */
  lemma CombineKeepsCoherence(rs: seq<VerificationResult>)
    requires forall i :: 0 <= i < |rs| ==> Coherent(rs[i])
    ensures Coherent(Combine(rs))
  {
    var r := Combine(rs);
    if r != Passed {
      var i :| 0 <= i < |rs| && rs[i] == r;
    }
  }

  /** Every license, whatever its type, gets a coherent result. */
  lemma StatusMatchesValidity(license: License, adding: bool, now: int)
    ensures Coherent(VerifyLicense(license, adding, now))
  {
    if license.licenseType == Mixed {
      var rs := Applicable(license, adding, now);
      assert forall i :: 0 <= i < |rs| ==> Coherent(rs[i]);
      CombineKeepsCoherence(rs);
    }
  }
}
