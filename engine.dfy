/**
 * The Python verification engine `LicenseVerifier` of check_License_new.py:
 * four independent checks (country, MAC, expiry, seats), an aggregator that
 * always runs all four, and the verification token.  The geolocation lookup,
 * the MAC list of the machine, today's date, the date parser and the md5
 * digest come in as an `Env`.
 */
module Engine {
  import opened Common
  import opened SeatStore

  /** The `(bool, message)` pair every check returns. */
  datatype CheckResult = CheckResult(valid: bool, message: string)

  /** Results of the adapters and the injected primitives. */
  datatype Env = Env(
    lookup: Option<string>,            // country code from the geolocation service; None when it failed
    countryNames: map<string, string>, // code -> name, from country_codes.csv
    systemMacs: seq<string>,           // upper-case MAC addresses of this machine
    today: int,                        // day number of datetime.date.today()
    isoDate: int -> string,            // str() of a date, so str(datetime.date.today()) is isoDate(today)
    parseDate: string -> DateParse,    // strptime(_, "%Y-%m-%d")
    digest: string -> string)          // hashlib.md5(_).hexdigest()

  /** A failed lookup, or a reply without a country, becomes 'Unknown'. */
  function CurrentCountry(lookup: Option<string>): string {
    if lookup.Some? then lookup.value else "Unknown"
  }

  function CountryName(names: map<string, string>, code: string): string {
    if code in names then names[code] else code
  }

  function CheckCountry(current: string, names: map<string, string>, allowed: seq<string>): (r: CheckResult)
    ensures allowed == [] ==> r == CheckResult(false, "No allowed countries specified in license")
    ensures r.valid <==> current in allowed
    ensures r.valid ==> ContainsSub(r.message, current)
    ensures !r.valid && allowed != [] ==> ContainsSub(r.message, current)
  {
    var name := CountryName(names, current);
    if allowed == [] then
      CheckResult(false, "No allowed countries specified in license")
    else if current in allowed then
      ContainsInMiddle("Country " + name + " (", current, ") is allowed");
      CheckResult(true, "Country " + name + " (" + current + ") is allowed")
    else
      ContainsInMiddle("License not valid in " + name + " (", current, ")");
      CheckResult(false, "License not valid in " + name + " (" + current + ")")
  }

  /** An unresolved location is compared like any code: it passes only if 'Unknown' is listed. */
  lemma UnknownCountryFailsClosed(names: map<string, string>, allowed: seq<string>)
    ensures CheckCountry(CurrentCountry(None), names, allowed).valid <==> "Unknown" in allowed
  {
  }

  /** The first MAC of the machine, in interface order, that the license lists. */
  function FirstAuthorized(system: seq<string>, allowed: seq<string>): (r: Option<string>)
    ensures r.None? <==> forall i :: 0 <= i < |system| ==> system[i] !in allowed
    ensures r.Some? ==> exists i :: 0 <= i < |system| && system[i] == r.value && r.value in allowed &&
                                    forall j :: 0 <= j < i ==> system[j] !in allowed
    decreases |system|
  {
    if system == [] then None
    else if system[0] in allowed then Some(system[0])
    else
      var r := FirstAuthorized(system[1..], allowed);
      assert forall i :: 1 <= i < |system| ==> system[i] == system[1..][i - 1];
      if r.Some? then
        assert exists i :: 0 <= i < |system| && system[i] == r.value && r.value in allowed &&
                           forall j :: 0 <= j < i ==> system[j] !in allowed by {
          var k :| 0 <= k < |system[1..]| && system[1..][k] == r.value && r.value in allowed &&
                   forall j :: 0 <= j < k ==> system[1..][j] !in allowed;
          assert system[k + 1] == r.value;
          assert forall j :: 1 <= j < k + 1 ==> system[j] == system[1..][j - 1];
        }
        r
      else r
  }

  /** Passes iff some MAC of the machine is in the upper-cased allowed list. */
  function CheckMac(system: seq<string>, allowed: seq<string>): (r: CheckResult)
    ensures allowed == [] ==> r == CheckResult(false, "No MAC addresses specified in license")
    ensures r.valid <==> allowed != [] && exists i :: 0 <= i < |system| && system[i] in UpperAll(allowed)
  {
    if allowed == [] then
      CheckResult(false, "No MAC addresses specified in license")
    else
      match FirstAuthorized(system, UpperAll(allowed))
      case Some(mac) => CheckResult(true, "MAC address " + mac + " is authorized")
      case None => CheckResult(false, "This system's MAC addresses are not authorized")
  }

  /** With upper-case system MACs the comparison ignores the case of the allowed entries. */
  lemma MacMatchIgnoresCase(system: seq<string>, allowed: seq<string>)
    requires forall i :: 0 <= i < |system| ==> Upper(system[i]) == system[i]
    ensures CheckMac(system, allowed).valid <==>
            exists i, a :: 0 <= i < |system| && a in allowed && Upper(a) == Upper(system[i])
  {
    if CheckMac(system, allowed).valid {
      var i :| 0 <= i < |system| && system[i] in UpperAll(allowed);
      UpperAllMember(allowed, system[i]);
    }
    if exists i, a :: 0 <= i < |system| && a in allowed && Upper(a) == Upper(system[i]) {
      var i, a :| 0 <= i < |system| && a in allowed && Upper(a) == Upper(system[i]);
      UpperAllMember(allowed, system[i]);
    }
  }

  /** Expiry against today: negative days fail, 0..30 pass with a notice, more pass quietly. */
  function CheckExpiry(parsed: DateParse, today: int): (r: CheckResult)
    ensures r.valid <==> parsed.Date? && parsed.day >= today
    ensures parsed.BadDate? ==> r.message == "Invalid expiry date format"
    ensures parsed.Date? && parsed.day < today ==>
              r.message == "License expired " + IntToString(today - parsed.day) + " days ago"
    ensures r.valid ==> (ContainsSub(r.message, "expires soon") <==> parsed.day - today <= 30)
  {
    match parsed
    case BadDate(_) => CheckResult(false, "Invalid expiry date format")
    case Date(expiry) =>
      var daysLeft := expiry - today;
      if daysLeft < 0 then
        CheckResult(false, "License expired " + IntToString(-daysLeft) + " days ago")
      else if daysLeft <= 30 then
        SoonMessageFlagged(daysLeft);
        CheckResult(true, SoonMessage(daysLeft))
      else
        ValidForMessageUnflagged(daysLeft);
        CheckResult(true, ValidForMessage(daysLeft))
  }

  function SoonMessage(days: int): string {
    "License expires soon (in " + IntToString(days) + " days). Please renew."
  }

  function ValidForMessage(days: int): string {
    "License valid for " + IntToString(days) + " more days"
  }

  lemma SoonMessageFlagged(days: int)
    ensures ContainsSub(SoonMessage(days), "expires soon")
  {
    var s, head := SoonMessage(days), "License expires soon (in ";
    assert s[8..20] == head[8..20] == "expires soon";
    ContainsAt(s, "expires soon", 8);
  }

  lemma ValidForMessageUnflagged(days: int)
    requires days >= 0
    ensures !ContainsSub(ValidForMessage(days), "expires soon")
  {
    var msg := ValidForMessage(days);
    assert forall k :: 0 <= k < |msg| ==> msg[k] != 'x';
    MissingCharNotContained(msg, "expires soon", 'x');
  }

  /** The message of the seat check for each outcome of the counter. */
  function SeatCheck(s: Seat, limit: int): (r: CheckResult)
    ensures r.valid <==> s.Granted? || s.Available?
  {
    match s
    case Unreadable(e) => CheckResult(false, "User count check failed: " + e)
    case AtLimit(c) => CheckResult(false, "User limit reached: " + IntToString(c) + "/" + IntToString(limit))
    case Granted(c) => CheckResult(true, "New user added: " + IntToString(c) + "/" + IntToString(limit))
    case Available(c) => CheckResult(true, "User count OK: " + IntToString(c) + "/" + IntToString(limit))
  }

  /** Seat check against the counter store: a claim goes through Claim, a status check only peeks. */
  method CheckUserCount(store: SeatCounter, key: string, maxUsers: int, adding: bool) returns (r: CheckResult)
    modifies store
    ensures r == SeatCheck(SeatOutcome(old(store.Stored(key)), maxUsers, adding), maxUsers)
    ensures var s := SeatOutcome(old(store.Stored(key)), maxUsers, adding);
            store.counts == if s.Granted? then old(store.counts)[key := s.count] else old(store.counts)
    ensures store.unreadable == old(store.unreadable)
  {
    if adding {
      var s := store.Claim(key, maxUsers);
      r := SeatCheck(s, maxUsers);
    } else {
      var read := store.Peek(key);
      r := SeatCheck(SeatOutcome(read, maxUsers, false), maxUsers);
    }
  }

  /** The declared constraints of one license. */
  datatype Details = Details(
    allowedCountries: seq<string>,
    allowedMacs: seq<string>,
    expiryDate: string,
    maxUsers: int,
    tier: string,
    features: seq<string>)

  /** The four hard-coded demonstration licenses; `macs` is the machine's MAC list. */
  function KnownLicenses(macs: seq<string>): map<string, Details> {
    map[
      "PREMIUM-123" := Details(["US", "IN", "MY", "GB", "CA"], macs, "2025-12-31", 50, "Premium",
                               ["All Features", "Priority Support", "White Labeling"]),
      "STANDARD-456" := Details(["US", "IN"], macs, "2025-06-30", 25, "Standard",
                                ["Basic Features", "Email Support", "API Access"]),
      "BASIC-789" := Details(["US"], ["00:11:22:33:44:55"], "2024-12-31", 5, "Basic",
                             ["Basic Features", "Community Support"]),
      "EXPIRED-999" := Details(["US", "IN", "MY"], macs, "2023-01-01", 10, "Standard",
                               ["Basic Features", "Email Support"])
    ]
  }

  /** The record synthesized for every key not in the table. */
  function CustomLicense(macs: seq<string>): Details {
    Details(["US", "IN", "MY"], macs, "2025-12-31", 10, "Custom", ["Custom License Features"])
  }

  /** Table lookup after adding the fallback record: never comes back empty. */
  function LicenseDetails(key: string, macs: seq<string>): (d: Option<Details>)
    ensures d.Some?
    ensures key in KnownLicenses(macs) ==> d.value == KnownLicenses(macs)[key]
    ensures key !in KnownLicenses(macs) ==> d.value == CustomLicense(macs)
  {
    var licenses := KnownLicenses(macs);
    var withFallback := if key !in licenses then licenses[key := CustomLicense(macs)] else licenses;
    if key in withFallback then Some(withFallback[key]) else None
  }

  datatype Report = Report(
    licenseKey: string,
    tier: string,
    features: seq<string>,
    country: CheckResult,
    mac: CheckResult,
    expiry: CheckResult,
    userCount: CheckResult,
    token: string)

  datatype Verification = Verification(valid: bool, summary: string, report: Report)

  function Keep(b: bool, message: string): seq<string> {
    if b then [message] else []
  }

  /** Messages of the failed checks in the order country, MAC, expiry, seats, plus the
      expiry message when it passed with "expires soon". */
  function Notices(c: CheckResult, m: CheckResult, e: CheckResult, u: CheckResult): (ns: seq<string>)
    ensures c.valid && m.valid && e.valid && u.valid && !ContainsSub(e.message, "expires soon") ==> ns == []
    ensures !c.valid ==> |ns| >= 1 && ns[0] == c.message
    ensures !u.valid ==> |ns| >= 1 && ns[|ns| - 1] == u.message
    ensures |ns| <= 4
  {
    Keep(!c.valid, c.message) + Keep(!m.valid, m.message)
    + Keep(!e.valid || ContainsSub(e.message, "expires soon"), e.message) + Keep(!u.valid, u.message)
  }

  /** The summary line; it starts with the success text exactly when the verdict is positive. */
  function Summary(valid: bool, messages: seq<string>): (s: string)
    ensures valid <==> "License verification successful" <= s
    ensures !valid ==> "License verification failed: " <= s
    ensures valid && messages == [] ==> s == "License verification successful"
    ensures valid && messages != [] ==> "License verification successful with notices: " <= s
  {
    if valid then
      "License verification successful" + (if messages != [] then " with notices: " + Join(messages, "; ") else "")
    else
      var s := "License verification failed: " + Join(messages, "; ");
      assert s[21] == 'f' != "License verification successful"[21];
      s
  }

  /** The text the token digests: f"{license_key}:{is_valid}:{date.today()}". */
  function TokenInput(key: string, valid: bool, day: string): string {
    key + ":" + (if valid then "True" else "False") + ":" + day
  }

  /** For a fixed key, the digested text tells verdict and day apart. */
  lemma TokenInputSeparatesVerdictAndDay(key: string, v1: bool, d1: string, v2: bool, d2: string)
    requires TokenInput(key, v1, d1) == TokenInput(key, v2, d2)
    ensures v1 == v2 && d1 == d2
  {
    var s1, s2 := TokenInput(key, v1, d1), TokenInput(key, v2, d2);
    var n := |key| + 1;
    assert s1[n] == (if v1 then 'T' else 'F');
    assert s2[n] == (if v2 then 'T' else 'F');
    var w := if v1 then "True" else "False";
    assert s1[n + |w| + 1..] == d1;
    assert s2[n + |w| + 1..] == d2;
  }

  /** With a one-to-one date formatting, the digested text also tells the day numbers apart,
      so the token of one key changes with the verdict and with the day. */
  lemma TokenInputSeparatesDays(isoDate: int -> string, key: string, v1: bool, t1: int, v2: bool, t2: int)
    requires forall a, b :: isoDate(a) == isoDate(b) ==> a == b
    requires TokenInput(key, v1, isoDate(t1)) == TokenInput(key, v2, isoDate(t2))
    ensures v1 == v2 && t1 == t2
  {
    TokenInputSeparatesVerdictAndDay(key, v1, isoDate(t1), v2, isoDate(t2));
  }

  /** For a fixed verdict and day, the digested text tells keys apart. */
  lemma TokenInputSeparatesKeys(k1: string, k2: string, valid: bool, day: string)
    requires TokenInput(k1, valid, day) == TokenInput(k2, valid, day)
    ensures k1 == k2
  {
    var s := TokenInput(k1, valid, day);
    assert |k1| == |k2|;
    assert s[..|k1|] == k1;
    assert TokenInput(k2, valid, day)[..|k2|] == k2;
  }

  /** The four checks of one license record and their aggregate. */
  function Assess(key: string, d: Details, adding: bool, env: Env, stored: ReadResult): (v: Verification)
    ensures v.valid <==> v.report.country.valid && v.report.mac.valid && v.report.expiry.valid && v.report.userCount.valid
    ensures v.report.token == env.digest(TokenInput(key, v.valid, env.isoDate(env.today)))
    ensures v.report.licenseKey == key
  {
    var c := CheckCountry(CurrentCountry(env.lookup), env.countryNames, d.allowedCountries);
    var m := CheckMac(env.systemMacs, d.allowedMacs);
    var e := CheckExpiry(env.parseDate(d.expiryDate), env.today);
    var u := SeatCheck(SeatOutcome(stored, d.maxUsers, adding), d.maxUsers);
    var valid := c.valid && m.valid && e.valid && u.valid;
    Verification(valid, Summary(valid, Notices(c, m, e, u)),
                 Report(key, d.tier, d.features, c, m, e, u, env.digest(TokenInput(key, valid, env.isoDate(env.today)))))
  }

  /** The full evaluation of one key, given what the counter file held beforehand: the key's
      record (the Custom one for an unlisted key) put through the four checks. */
  function Evaluate(key: string, adding: bool, env: Env, stored: ReadResult): (v: Verification)
    ensures v.report.licenseKey == key
    ensures v.report.tier == if key in KnownLicenses(env.systemMacs) then KnownLicenses(env.systemMacs)[key].tier else "Custom"
    ensures v.valid <==> v.report.country.valid && v.report.mac.valid && v.report.expiry.valid && v.report.userCount.valid
    ensures v.valid <==> "License verification successful" <= v.summary
  {
    Assess(key, LicenseDetails(key, env.systemMacs).value, adding, env, stored)
  }

  /** The token depends on the key, the verdict and the day text only. */
  lemma TokenDeterministic(key: string, adding1: bool, env1: Env, stored1: ReadResult,
                           adding2: bool, env2: Env, stored2: ReadResult)
    requires env1.digest == env2.digest && env1.isoDate(env1.today) == env2.isoDate(env2.today)
    requires Evaluate(key, adding1, env1, stored1).valid == Evaluate(key, adding2, env2, stored2).valid
    ensures Evaluate(key, adding1, env1, stored1).report.token == Evaluate(key, adding2, env2, stored2).report.token
  {
  }

  /** The engine: looks the key up, then runs all four checks; the verdict is their AND. */
  method VerifyLicense(key: string, adding: bool, env: Env, store: SeatCounter) returns (v: Verification)
    modifies store
    ensures v == Evaluate(key, adding, env, old(store.Stored(key)))
    ensures var s := SeatOutcome(old(store.Stored(key)), LicenseDetails(key, env.systemMacs).value.maxUsers, adding);
            store.counts == if s.Granted? then old(store.counts)[key := s.count] else old(store.counts)
    ensures !adding ==> store.counts == old(store.counts)
    ensures store.unreadable == old(store.unreadable)
  {
    var details := LicenseDetails(key, env.systemMacs).value;
    v := RunChecks(key, details, adding, env, store);
  }

  /** The country, MAC and expiry checks in turn, as verify_license runs them before the seat
      check: the verdict so far and the messages collected so far. */
  method ChecksBeforeSeats(details: Details, env: Env)
    returns (isValid: bool, messages: seq<string>, country: CheckResult, mac: CheckResult, expiry: CheckResult)
    ensures country == CheckCountry(CurrentCountry(env.lookup), env.countryNames, details.allowedCountries)
    ensures mac == CheckMac(env.systemMacs, details.allowedMacs)
    ensures expiry == CheckExpiry(env.parseDate(details.expiryDate), env.today)
    ensures isValid == (country.valid && mac.valid && expiry.valid)
    ensures messages == Keep(!country.valid, country.message) + Keep(!mac.valid, mac.message)
                        + Keep(!expiry.valid || ContainsSub(expiry.message, "expires soon"), expiry.message)
  {
    isValid := true;
    messages := [];

    country := CheckCountry(CurrentCountry(env.lookup), env.countryNames, details.allowedCountries);
    if !country.valid {
      isValid := false;
      messages := messages + [country.message];
    }
    assert isValid == country.valid && messages == Keep(!country.valid, country.message);

    mac := CheckMac(env.systemMacs, details.allowedMacs);
    if !mac.valid {
      isValid := false;
      messages := messages + [mac.message];
    }
    assert isValid == (country.valid && mac.valid);
    assert messages == Keep(!country.valid, country.message) + Keep(!mac.valid, mac.message);

    expiry := CheckExpiry(env.parseDate(details.expiryDate), env.today);
    if !expiry.valid {
      isValid := false;
      messages := messages + [expiry.message];
    } else if ContainsSub(expiry.message, "expires soon") {
      messages := messages + [expiry.message];
    }
  }

  /** The body of verify_license once the record is known: every check runs, failures and
      the soon-expiry notice are collected in order. */
  method RunChecks(key: string, details: Details, adding: bool, env: Env, store: SeatCounter) returns (v: Verification)
    modifies store
    ensures v == Assess(key, details, adding, env, old(store.Stored(key)))
    ensures var s := SeatOutcome(old(store.Stored(key)), details.maxUsers, adding);
            store.counts == if s.Granted? then old(store.counts)[key := s.count] else old(store.counts)
    ensures store.unreadable == old(store.unreadable)
  {
    ghost var stored := store.Stored(key);
    var isValid, messages, country, mac, expiry := ChecksBeforeSeats(details, env);

    var user := CheckUserCount(store, key, details.maxUsers, adding);
    if !user.valid {
      isValid := false;
      messages := messages + [user.message];
    }

    assert messages == Notices(country, mac, expiry, user);
    var summary := Summary(isValid, messages);
    var token := env.digest(TokenInput(key, isValid, env.isoDate(env.today)));
    v := Verification(isValid, summary, Report(key, details.tier, details.features, country, mac, expiry, user, token));
    AssessOfChecks(key, details, adding, env, stored, country, mac, expiry, user);
  }

  /** Assess spelled out on the four check results. */
  lemma AssessOfChecks(key: string, d: Details, adding: bool, env: Env, stored: ReadResult,
                       c: CheckResult, m: CheckResult, e: CheckResult, u: CheckResult)
    requires c == CheckCountry(CurrentCountry(env.lookup), env.countryNames, d.allowedCountries)
    requires m == CheckMac(env.systemMacs, d.allowedMacs)
    requires e == CheckExpiry(env.parseDate(d.expiryDate), env.today)
    requires u == SeatCheck(SeatOutcome(stored, d.maxUsers, adding), d.maxUsers)
    ensures var valid := c.valid && m.valid && e.valid && u.valid;
            Assess(key, d, adding, env, stored) ==
            Verification(valid, Summary(valid, Notices(c, m, e, u)),
                         Report(key, d.tier, d.features, c, m, e, u, env.digest(TokenInput(key, valid, env.isoDate(env.today)))))
  {
  }

  /** A key outside the table, seen from a listed country on a listed machine, 400 days before
      expiry, claiming the first seat: the verification passes with no notices and a grant of seat 1. */
  lemma CustomKeyFarFromExpiry(key: string, env: Env)
    requires key !in KnownLicenses(env.systemMacs)
    requires env.lookup == Some("US")
    requires |env.systemMacs| > 0 && Upper(env.systemMacs[0]) == env.systemMacs[0]
    requires env.parseDate("2025-12-31") == Date(env.today + 400)
    ensures Evaluate(key, true, env, Read(0)).valid
    ensures Evaluate(key, true, env, Read(0)).summary == "License verification successful"
    ensures SeatOutcome(Read(0), LicenseDetails(key, env.systemMacs).value.maxUsers, true) == Granted(1)
  {
    UpperAllMember(env.systemMacs, env.systemMacs[0]);
    var e := CheckExpiry(env.parseDate("2025-12-31"), env.today);
    assert !ContainsSub(e.message, "expires soon");
  }

  lemma TenDaysLeftMessage(today: int)
    ensures CheckExpiry(Date(today + 10), today) == CheckResult(true, "License expires soon (in 10 days). Please renew.")
  {
    assert IntToString(10) == "10";
  }

  /** Any record whose country and MAC checks pass, 10 days before expiry, with a seat to give:
      valid, with exactly one notice, the expiry one. */
  lemma TenDaysLeftGivesOneNotice(key: string, d: Details, env: Env, stored: ReadResult)
    requires CurrentCountry(env.lookup) in d.allowedCountries
    requires CheckMac(env.systemMacs, d.allowedMacs).valid
    requires env.parseDate(d.expiryDate) == Date(env.today + 10)
    requires stored.Read? && stored.count < d.maxUsers
    ensures Assess(key, d, true, env, stored).valid
    ensures Assess(key, d, true, env, stored).summary ==
            "License verification successful" + " with notices: " + "License expires soon (in 10 days). Please renew."
  {
    var c := CheckCountry(CurrentCountry(env.lookup), env.countryNames, d.allowedCountries);
    var m := CheckMac(env.systemMacs, d.allowedMacs);
    var e := CheckExpiry(env.parseDate(d.expiryDate), env.today);
    var u := SeatCheck(SeatOutcome(stored, d.maxUsers, true), d.maxUsers);
    TenDaysLeftMessage(env.today);
    assert Notices(c, m, e, u) == [e.message];
    assert Join([e.message], "; ") == e.message;
  }

  /** The fallback record 10 days before its expiry, claiming the first seat. */
  lemma CustomKeyNearExpiry(key: string, env: Env)
    requires key !in KnownLicenses(env.systemMacs)
    requires env.lookup == Some("US")
    requires |env.systemMacs| > 0 && Upper(env.systemMacs[0]) == env.systemMacs[0]
    requires env.parseDate("2025-12-31") == Date(env.today + 10)
    ensures Evaluate(key, true, env, Read(0)).valid
    ensures Evaluate(key, true, env, Read(0)).summary ==
            "License verification successful" + " with notices: " + "License expires soon (in 10 days). Please renew."
  {
    UpperAllMember(env.systemMacs, env.systemMacs[0]);
    TenDaysLeftGivesOneNotice(key, CustomLicense(env.systemMacs), env, Read(0));
  }
}
