/**
 * The standalone checker check_Licence.py: module-level functions over a
 * license-data dictionary whose keys may be missing.  Country failures from
 * the lookup are reported, not raised; the seat limit comes from a small
 * key-to-limit table rather than from the license data.
 */
module Legacy {
  import opened Common
  import opened SeatStore
  import Engine

  /** What the geolocation request produced. */
  datatype GeoLookup =
    | Located(country: Option<string>)   // the reply, with or without a 'country' field
    | NetworkError(error: string)        // requests.RequestException
    | OtherError(error: string)          // any other failure, e.g. a reply that is not JSON

  /** The license-data dictionary; None marks a missing key. */
  datatype LicenseData = LicenseData(
    licenseKey: Option<string>,
    allowedCountries: Option<seq<string>>,
    expiryDate: Option<string>,
    allowedMacs: Option<seq<string>>)

  datatype Env = Env(
    geo: GeoLookup,
    countryNames: map<string, string>,   // code -> name, from country_codes.csv
    systemMac: string,
    today: int,
    parseDate: string -> DateParse)

  /** The countries assumed when the caller passes none. */
  const DefaultCountries: seq<string> := ["MY", "US", "IN"]

  function CheckCountry(geo: GeoLookup, names: map<string, string>, allowed: Option<seq<string>>): (r: Engine.CheckResult)
    ensures r.valid <==> geo.Located? && Engine.CurrentCountry(geo.country) in allowed.GetOr(DefaultCountries)
    ensures r.valid ==> r.message == "Licence is Valid"
    ensures geo.NetworkError? ==> r.message == "Cannot determine country: Network error: " + geo.error
    ensures geo.OtherError? ==> r.message == "Internal system error while checking country: " + geo.error
  {
    var countries := allowed.GetOr(DefaultCountries);
    match geo
    case NetworkError(e) => Engine.CheckResult(false, "Cannot determine country: Network error: " + e)
    case OtherError(e) => Engine.CheckResult(false, "Internal system error while checking country: " + e)
    case Located(reply) =>
      var country := Engine.CurrentCountry(reply);
      if country !in countries then
        Engine.CheckResult(false, "This software does not work in " + Engine.CountryName(names, country)
                                  + " (Code: " + country + ")")
      else
        Engine.CheckResult(true, "Licence is Valid")
  }

  /** An explicitly empty list admits no country: only a missing list falls back to the defaults. */
  lemma EmptyListIsNotDefault(geo: GeoLookup, names: map<string, string>)
    ensures !CheckCountry(geo, names, Some([])).valid
    ensures geo == Located(Some("US")) ==> CheckCountry(geo, names, None).valid
  {
  }

  /** True when the date message carries the renewal notice. */
  predicate RenewalNotice(message: string) {
    ContainsSub(message, "expires in") && ContainsSub(message, "Please renew soon")
  }

  function CheckDate(parsed: DateParse, today: int): (r: Engine.CheckResult)
    ensures r.valid <==> parsed.Date? && parsed.day >= today
    ensures parsed.BadDate? ==> r.message == "Date check error: " + parsed.error
    ensures parsed.Date? && parsed.day < today ==> r.message == "License has expired."
    ensures r.valid ==> (RenewalNotice(r.message) <==> parsed.day - today <= 30)
  {
    match parsed
    case BadDate(e) => Engine.CheckResult(false, "Date check error: " + e)
    case Date(expiry) =>
      var days := expiry - today;
      if days < 0 then
        Engine.CheckResult(false, "License has expired.")
      else if days <= 30 then
        RenewSoonMessageFlagged(days);
        Engine.CheckResult(true, RenewSoonMessage(days))
      else
        ValidMessageUnflagged(days);
        Engine.CheckResult(true, ValidMessage(days))
  }

  function RenewSoonMessage(days: int): string {
    "License is valid but " + "expires in" + (" " + IntToString(days) + " days. ") + "Please renew soon" + "."
  }

  function ValidMessage(days: int): string {
    "License is valid. Expires in " + IntToString(days) + " days."
  }

  lemma RenewSoonMessageFlagged(days: int)
    ensures RenewalNotice(RenewSoonMessage(days))
  {
    var a := "License is valid but ";
    var b := " " + IntToString(days) + " days. ";
    ContainsInMiddle(a, "expires in", b);
    ContainsInPrefix(a + "expires in" + b, "Please renew soon" + ".", "expires in");
    assert a + "expires in" + b + ("Please renew soon" + ".") == a + "expires in" + b + "Please renew soon" + ".";
    ContainsInMiddle(a + "expires in" + b, "Please renew soon", ".");
  }

  lemma ValidMessageUnflagged(days: int)
    requires days >= 0
    ensures !RenewalNotice(ValidMessage(days))
  {
    var msg := ValidMessage(days);
    assert forall k :: 0 <= k < |msg| ==> msg[k] != 'P';
    MissingCharNotContained(msg, "Please renew soon", 'P');
  }

  /** Both Python expiry checks reach the same verdict and raise their notice on the same days. */
  lemma DateAgreesWithEngine(parsed: DateParse, today: int)
    ensures CheckDate(parsed, today).valid == Engine.CheckExpiry(parsed, today).valid
    ensures CheckDate(parsed, today).valid ==>
              (RenewalNotice(CheckDate(parsed, today).message) <==>
               ContainsSub(Engine.CheckExpiry(parsed, today).message, "expires soon"))
  {
  }

  /** Exact, case-sensitive membership of the machine's MAC. */
  function CheckMac(system: string, allowed: seq<string>): (r: Engine.CheckResult)
    ensures allowed == [] ==> r == Engine.CheckResult(false, "No allowed MAC addresses specified")
    ensures r.valid <==> system in allowed
    ensures !r.valid && allowed != [] ==> r.message == "This license is not valid for this device (MAC: " + system + ")"
  {
    if allowed == [] then
      Engine.CheckResult(false, "No allowed MAC addresses specified")
    else if system in allowed then
      Engine.CheckResult(true, "MAC address is allowed")
    else
      Engine.CheckResult(false, "This license is not valid for this device (MAC: " + system + ")")
  }

  /** get_max_users_for_license: three named keys, 10 for every other key. */
  function MaxUsersForLicense(key: string): (n: int)
    ensures n in {50, 25, 5, 10}
    ensures key !in {"PREMIUM-123", "STANDARD-456", "BASIC-789"} ==> n == 10
  {
    if key == "PREMIUM-123" then 50
    else if key == "STANDARD-456" then 25
    else if key == "BASIC-789" then 5
    else 10
  }

  /** This table agrees with the engine's records on every key: the expired demonstration key,
      which it does not list, gets the default 10, and so does the engine's record for it. */
  lemma LimitsMatchEngineTable(key: string, macs: seq<string>)
    ensures MaxUsersForLicense(key) == Engine.LicenseDetails(key, macs).value.maxUsers
  {
  }

  /** The message of the seat check; a refused claim says so. */
  function SeatCheck(s: Seat, limit: int, adding: bool): (r: Engine.CheckResult)
    ensures r.valid <==> s.Granted? || s.Available?
  {
    match s
    case Unreadable(e) => Engine.CheckResult(false, "Error checking user count: " + e)
    case AtLimit(c) =>
      var reached := "User count limit reached (" + IntToString(c) + "/" + IntToString(limit) + ").";
      Engine.CheckResult(false, if adding then reached + " Cannot add new user." else reached)
    case Granted(c) =>
      Engine.CheckResult(true, "New user added. Current user count: " + IntToString(c) + "/" + IntToString(limit))
    case Available(c) =>
      Engine.CheckResult(true, "User count is within allowed limit (" + IntToString(c) + "/" + IntToString(limit) + ").")
  }

  datatype Report = Report(country: Engine.CheckResult, date: Engine.CheckResult, mac: Engine.CheckResult,
                           userCount: Engine.CheckResult)

  datatype Verification = Verification(valid: bool, message: string, report: Report)

  /** The failed checks' messages in the order country, date, MAC, seats, plus the renewal notice. */
  function Notices(c: Engine.CheckResult, d: Engine.CheckResult, m: Engine.CheckResult, u: Engine.CheckResult): (ns: seq<string>)
    ensures c.valid && d.valid && m.valid && u.valid && !RenewalNotice(d.message) ==> ns == []
    ensures !c.valid ==> |ns| >= 1 && ns[0] == c.message
    ensures |ns| <= 4
  {
    Engine.Keep(!c.valid, c.message) + Engine.Keep(!d.valid || RenewalNotice(d.message), d.message)
    + Engine.Keep(!m.valid, m.message) + Engine.Keep(!u.valid, u.message)
  }

  /** The overall message; it starts with the validity text exactly when the verdict is positive. */
  function Overall(valid: bool, messages: seq<string>): (s: string)
    ensures valid <==> "License is valid and active for this system." <= s
    ensures !valid ==> "License validation failed: " <= s
    ensures valid && messages == [] ==> s == "License is valid and active for this system."
    ensures valid && messages != [] ==> "License is valid and active for this system. However: " <= s
  {
    if valid then
      "License is valid and active for this system." + (if messages != [] then " However: " + Join(messages, "; ") else "")
    else
      var s := "License validation failed: " + Join(messages, "; ");
      assert s[8] == 'v' != "License is valid and active for this system."[8];
      s
  }

  function KeyOf(data: LicenseData): string {
    data.licenseKey.GetOr("DEFAULT")
  }

  /** check_license over the counter value stored beforehand for the key. */
  function Assess(data: LicenseData, adding: bool, env: Env, stored: ReadResult): (v: Verification)
    ensures v.valid <==> v.report.country.valid && v.report.date.valid && v.report.mac.valid && v.report.userCount.valid
    ensures v.report.date.valid <==> env.parseDate(data.expiryDate.GetOr("2099-12-31")).Date? &&
                                     env.parseDate(data.expiryDate.GetOr("2099-12-31")).day >= env.today
    ensures v.report.mac.valid <==> env.systemMac in data.allowedMacs.GetOr([])
    ensures var limit := MaxUsersForLicense(KeyOf(data));
            v.report.userCount == SeatCheck(SeatOutcome(stored, limit, adding), limit, adding)
  {
    var c := CheckCountry(env.geo, env.countryNames, data.allowedCountries);
    var d := CheckDate(env.parseDate(data.expiryDate.GetOr("2099-12-31")), env.today);
    var m := CheckMac(env.systemMac, data.allowedMacs.GetOr([]));
    var limit := MaxUsersForLicense(KeyOf(data));
    var u := SeatCheck(SeatOutcome(stored, limit, adding), limit, adding);
    var valid := c.valid && d.valid && m.valid && u.valid;
    Verification(valid, Overall(valid, Notices(c, d, m, u)), Report(c, d, m, u))
  }

  /** With the key missing the seats are counted under 'DEFAULT', shared by every such caller. */
  lemma MissingKeySharesDefaultCounter(a: LicenseData, b: LicenseData)
    requires a.licenseKey.None? && b.licenseKey.None?
    ensures KeyOf(a) == KeyOf(b) == "DEFAULT"
  {
  }

  /** The country, date and MAC checks in turn, as check_license runs them before the seat
      check: the verdict so far and the messages collected so far. */
  method ChecksBeforeSeats(data: LicenseData, env: Env)
    returns (isValid: bool, messages: seq<string>, country: Engine.CheckResult, date: Engine.CheckResult,
             mac: Engine.CheckResult)
    ensures country == CheckCountry(env.geo, env.countryNames, data.allowedCountries)
    ensures date == CheckDate(env.parseDate(data.expiryDate.GetOr("2099-12-31")), env.today)
    ensures mac == CheckMac(env.systemMac, data.allowedMacs.GetOr([]))
    ensures isValid == (country.valid && date.valid && mac.valid)
    ensures messages == Engine.Keep(!country.valid, country.message)
                        + Engine.Keep(!date.valid || RenewalNotice(date.message), date.message)
                        + Engine.Keep(!mac.valid, mac.message)
  {
    isValid := true;
    messages := [];

    country := CheckCountry(env.geo, env.countryNames, data.allowedCountries);
    if !country.valid {
      isValid := false;
      messages := messages + [country.message];
    }
    assert isValid == country.valid && messages == Engine.Keep(!country.valid, country.message);

    date := CheckDate(env.parseDate(data.expiryDate.GetOr("2099-12-31")), env.today);
    if !date.valid {
      isValid := false;
      messages := messages + [date.message];
    } else if ContainsSub(date.message, "expires in") && ContainsSub(date.message, "Please renew soon") {
      messages := messages + [date.message];
    }
    assert isValid == (country.valid && date.valid);
    assert messages == Engine.Keep(!country.valid, country.message)
                       + Engine.Keep(!date.valid || RenewalNotice(date.message), date.message);

    mac := CheckMac(env.systemMac, data.allowedMacs.GetOr([]));
    if !mac.valid {
      isValid := false;
      messages := messages + [mac.message];
    }
  }

  /** Check_User_Count against the counter store; a broken counter file becomes a failed check. */
  method CheckUserCount(store: SeatCounter, key: string, adding: bool) returns (r: Engine.CheckResult)
    modifies store
    ensures r == SeatCheck(SeatOutcome(old(store.Stored(key)), MaxUsersForLicense(key), adding), MaxUsersForLicense(key), adding)
    ensures var s := SeatOutcome(old(store.Stored(key)), MaxUsersForLicense(key), adding);
            store.counts == if s.Granted? then old(store.counts)[key := s.count] else old(store.counts)
    ensures store.unreadable == old(store.unreadable)
  {
    var maxUsers := MaxUsersForLicense(key);
    var seat: Seat;
    if adding {
      seat := store.Claim(key, maxUsers);
    } else {
      var read := store.Peek(key);
      seat := SeatOutcome(read, maxUsers, false);
    }
    r := SeatCheck(seat, maxUsers, adding);
  }

  method CheckLicense(data: LicenseData, adding: bool, env: Env, store: SeatCounter) returns (v: Verification)
    modifies store
    ensures v == Assess(data, adding, env, old(store.Stored(KeyOf(data))))
    ensures var s := SeatOutcome(old(store.Stored(KeyOf(data))), MaxUsersForLicense(KeyOf(data)), adding);
            store.counts == if s.Granted? then old(store.counts)[KeyOf(data) := s.count] else old(store.counts)
    ensures store.unreadable == old(store.unreadable)
  {
    ghost var stored := store.Stored(KeyOf(data));
    var isValid, messages, country, date, mac := ChecksBeforeSeats(data, env);

    var key := data.licenseKey.GetOr("DEFAULT");
    var user := CheckUserCount(store, key, adding);
    if !user.valid {
      isValid := false;
      messages := messages + [user.message];
    }
    assert messages == Notices(country, date, mac, user);

    v := Verification(isValid, Overall(isValid, messages), Report(country, date, mac, user));
    AssessOfChecks(data, adding, env, stored, country, date, mac, user);
  }

  /** Assess spelled out on the four check results. */
  lemma AssessOfChecks(data: LicenseData, adding: bool, env: Env, stored: ReadResult,
                       c: Engine.CheckResult, d: Engine.CheckResult, m: Engine.CheckResult, u: Engine.CheckResult)
    requires c == CheckCountry(env.geo, env.countryNames, data.allowedCountries)
    requires d == CheckDate(env.parseDate(data.expiryDate.GetOr("2099-12-31")), env.today)
    requires m == CheckMac(env.systemMac, data.allowedMacs.GetOr([]))
    requires var limit := MaxUsersForLicense(KeyOf(data));
             u == SeatCheck(SeatOutcome(stored, limit, adding), limit, adding)
    ensures var valid := c.valid && d.valid && m.valid && u.valid;
            Assess(data, adding, env, stored) == Verification(valid, Overall(valid, Notices(c, d, m, u)), Report(c, d, m, u))
  {
  }

  lemma SampleSeatMessages()
    ensures SeatCheck(Available(0), 10, false) == Engine.CheckResult(true, "User count is within allowed limit (0/10).")
    ensures SeatCheck(Granted(1), 10, true) == Engine.CheckResult(true, "New user added. Current user count: 1/10")
    ensures SeatCheck(Available(1), 10, false) == Engine.CheckResult(true, "User count is within allowed limit (1/10).")
  {
    assert IntToString(10) == "10" && IntToString(0) == "0" && IntToString(1) == "1";
  }

  /** The sample run of the module: a status check, a claim, and a status check again, on an
      empty counter; the claim raises the stored count of the key from 0 to 1. */
  method SampleRun(env: Env) returns (first: Verification, second: Verification, third: Verification)
    ensures first.report.userCount == Engine.CheckResult(true, "User count is within allowed limit (0/10).")
    ensures second.report.userCount == Engine.CheckResult(true, "New user added. Current user count: 1/10")
    ensures third.report.userCount == Engine.CheckResult(true, "User count is within allowed limit (1/10).")
  {
    var data := LicenseData(Some("ABC-DEF-GHI-JKL"), Some(["IN", "US", "MY"]), Some("2025-12-31"), Some([env.systemMac]));
    var store := new SeatCounter();
    SampleSeatMessages();
    first := CheckLicense(data, false, env, store);
    second := CheckLicense(data, true, env, store);
    third := CheckLicense(data, false, env, store);
  }
}
