/**
 * The command-line verifier server/scripts/verify_license.py: the same four
 * checks as the engine, but with a single machine MAC, country messages
 * without the country's name, and a seat check that lets a broken counter
 * file escape as an exception to `main`, which turns it into exit status 1.
 */
module Script {
  import opened Common
  import opened SeatStore
  import Engine

  /** Adapters and primitives of the script. */
  datatype Env = Env(
    lookup: Option<string>,          // country from the geolocation service; None when it failed
    systemMac: string,               // uuid.getnode() printed as upper-case hex pairs
    today: int,
    isoDate: int -> string,
    parseDate: string -> DateParse,
    digest: string -> string)

  function CheckCountry(current: string, allowed: seq<string>): (r: Engine.CheckResult)
    ensures allowed == [] ==> r == Engine.CheckResult(false, "No allowed countries specified in license")
    ensures r.valid <==> current in allowed
    ensures allowed != [] ==> ContainsSub(r.message, current)
  {
    if allowed == [] then
      Engine.CheckResult(false, "No allowed countries specified in license")
    else if current in allowed then
      ContainsInMiddle("Country ", current, " is allowed");
      Engine.CheckResult(true, "Country " + current + " is allowed")
    else
      ContainsInMiddle("License not valid in ", current, "");
      assert "License not valid in " + current + "" == "License not valid in " + current;
      Engine.CheckResult(false, "License not valid in " + current)
  }

  /** The one MAC of the machine against the upper-cased allowed list. */
  function CheckMac(system: string, allowed: seq<string>): (r: Engine.CheckResult)
    ensures allowed == [] ==> r == Engine.CheckResult(false, "No MAC addresses specified in license")
    ensures r.valid <==> allowed != [] && system in UpperAll(allowed)
  {
    if allowed == [] then
      Engine.CheckResult(false, "No MAC addresses specified in license")
    else if system in UpperAll(allowed) then
      Engine.CheckResult(true, "MAC address " + system + " is authorized")
    else
      Engine.CheckResult(false, "This system's MAC address is not authorized")
  }

  /** A verification either completes or raises out of the seat check. */
  datatype Outcome = Completed(v: Engine.Verification) | Raised(error: string)

  /** A call that returns a value or raises an exception with a message. */
  datatype Raising<T> = Returned(value: T) | Threw(error: string)

  /** The raising counterpart of the engine's seat check. */
  function SeatCheck(s: Seat, limit: int): (r: Raising<Engine.CheckResult>)
    ensures r.Threw? <==> s.Unreadable?
    ensures r.Threw? ==> r.error == s.error
    ensures r.Returned? ==> r.value == Engine.SeatCheck(s, limit)
  {
    if s.Unreadable? then Threw(s.error) else Returned(Engine.SeatCheck(s, limit))
  }

  /** The checks of one record; a broken counter file aborts the whole verification. */
  function Assess(key: string, d: Engine.Details, adding: bool, env: Env, stored: ReadResult): (o: Outcome)
    ensures o.Raised? <==> stored.ReadFailed?
    ensures o.Raised? ==> o.error == stored.error
    ensures o.Completed? ==>
              (o.v.valid <==> o.v.report.country.valid && o.v.report.mac.valid && o.v.report.expiry.valid && o.v.report.userCount.valid)
    ensures o.Completed? ==> o.v.report.token == env.digest(Engine.TokenInput(key, o.v.valid, env.isoDate(env.today)))
  {
    var c := CheckCountry(Engine.CurrentCountry(env.lookup), d.allowedCountries);
    var m := CheckMac(env.systemMac, d.allowedMacs);
    var e := Engine.CheckExpiry(env.parseDate(d.expiryDate), env.today);
    var seat := SeatOutcome(stored, d.maxUsers, adding);
    match SeatCheck(seat, d.maxUsers)
    case Threw(error) => Raised(error)
    case Returned(u) =>
      var valid := c.valid && m.valid && e.valid && u.valid;
      Completed(Engine.Verification(valid, Engine.Summary(valid, Engine.Notices(c, m, e, u)),
        Engine.Report(key, d.tier, d.features, c, m, e, u, env.digest(Engine.TokenInput(key, valid, env.isoDate(env.today))))))
  }

  /** The evaluation of one key on this machine: a broken counter file raises, and otherwise
      the key's record (the Custom one for an unlisted key) is put through the four checks. */
  function Evaluate(key: string, adding: bool, env: Env, stored: ReadResult): (o: Outcome)
    ensures o.Raised? <==> stored.ReadFailed?
    ensures o.Completed? ==> o.v.report.licenseKey == key
    ensures o.Completed? ==>
              o.v.report.tier == if key in Engine.KnownLicenses([env.systemMac]) then Engine.KnownLicenses([env.systemMac])[key].tier else "Custom"
    ensures o.Completed? ==> (o.v.valid <==> "License verification successful" <= o.v.summary)
  {
    Assess(key, Engine.LicenseDetails(key, [env.systemMac]).value, adding, env, stored)
  }

  /** The engine's environment seen from a machine with exactly this one MAC. */
  function AsEngineEnv(env: Env, names: map<string, string>): Engine.Env {
    Engine.Env(env.lookup, names, [env.systemMac], env.today, env.isoDate, env.parseDate, env.digest)
  }

  /** On a one-MAC machine both Python verifiers reach the same verdict and the same token; where
      the engine reports a failed seat check, the script raises. */
  lemma AgreesWithEngine(key: string, adding: bool, env: Env, names: map<string, string>, stored: ReadResult)
    ensures var o := Evaluate(key, adding, env, stored);
            var w := Engine.Evaluate(key, adding, AsEngineEnv(env, names), stored);
            (o.Raised? ==> w.report.userCount == Engine.CheckResult(false, "User count check failed: " + o.error)) &&
            (o.Completed? ==> o.v.valid == w.valid && o.v.report.token == w.report.token &&
                              o.v.report.expiry == w.report.expiry && o.v.report.userCount == w.report.userCount)
  {
    var d := Engine.LicenseDetails(key, [env.systemMac]).value;
    var e := AsEngineEnv(env, names);
    var current := Engine.CurrentCountry(env.lookup);
    assert CheckCountry(current, d.allowedCountries).valid == Engine.CheckCountry(current, names, d.allowedCountries).valid;
    var sm := CheckMac(env.systemMac, d.allowedMacs);
    var em := Engine.CheckMac([env.systemMac], d.allowedMacs);
    assert sm.valid == em.valid by {
      if em.valid {
        var i :| 0 <= i < |[env.systemMac]| && [env.systemMac][i] in UpperAll(d.allowedMacs);
      }
    }
  }

  /** check_user_count, with the exception a broken counter file raises made explicit. */
  method CheckUserCount(store: SeatCounter, key: string, maxUsers: int, adding: bool) returns (r: Raising<Engine.CheckResult>)
    modifies store
    ensures r == SeatCheck(SeatOutcome(old(store.Stored(key)), maxUsers, adding), maxUsers)
    ensures var s := SeatOutcome(old(store.Stored(key)), maxUsers, adding);
            store.counts == if s.Granted? then old(store.counts)[key := s.count] else old(store.counts)
    ensures store.unreadable == old(store.unreadable)
  {
    var seat: Seat;
    if adding {
      seat := store.Claim(key, maxUsers);
    } else {
      var read := store.Peek(key);
      seat := SeatOutcome(read, maxUsers, false);
    }
    r := SeatCheck(seat, maxUsers);
  }

  /** verify_license with the record looked up by key. */
  method VerifyLicense(key: string, adding: bool, env: Env, store: SeatCounter) returns (o: Outcome)
    modifies store
    ensures o == Evaluate(key, adding, env, old(store.Stored(key)))
    ensures var s := SeatOutcome(old(store.Stored(key)), Engine.LicenseDetails(key, [env.systemMac]).value.maxUsers, adding);
            store.counts == if s.Granted? then old(store.counts)[key := s.count] else old(store.counts)
    ensures store.unreadable == old(store.unreadable)
  {
    var details := Engine.LicenseDetails(key, [env.systemMac]).value;
    o := RunChecks(key, details, adding, env, store);
  }

  /** The country, MAC and expiry checks in turn, as the script runs them before the seat
      check: the verdict so far and the messages collected so far. */
  method ChecksBeforeSeats(details: Engine.Details, env: Env)
    returns (isValid: bool, messages: seq<string>, country: Engine.CheckResult, mac: Engine.CheckResult,
             expiry: Engine.CheckResult)
    ensures country == CheckCountry(Engine.CurrentCountry(env.lookup), details.allowedCountries)
    ensures mac == CheckMac(env.systemMac, details.allowedMacs)
    ensures expiry == Engine.CheckExpiry(env.parseDate(details.expiryDate), env.today)
    ensures isValid == (country.valid && mac.valid && expiry.valid)
    ensures messages == Engine.Keep(!country.valid, country.message) + Engine.Keep(!mac.valid, mac.message)
                        + Engine.Keep(!expiry.valid || ContainsSub(expiry.message, "expires soon"), expiry.message)
  {
    isValid := true;
    messages := [];

    country := CheckCountry(Engine.CurrentCountry(env.lookup), details.allowedCountries);
    if !country.valid {
      isValid := false;
      messages := messages + [country.message];
    }
    assert isValid == country.valid && messages == Engine.Keep(!country.valid, country.message);

    mac := CheckMac(env.systemMac, details.allowedMacs);
    if !mac.valid {
      isValid := false;
      messages := messages + [mac.message];
    }
    assert isValid == (country.valid && mac.valid);
    assert messages == Engine.Keep(!country.valid, country.message) + Engine.Keep(!mac.valid, mac.message);

    expiry := Engine.CheckExpiry(env.parseDate(details.expiryDate), env.today);
    if !expiry.valid {
      isValid := false;
      messages := messages + [expiry.message];
    } else if ContainsSub(expiry.message, "expires soon") {
      messages := messages + [expiry.message];
    }
  }

  /** All four checks in order; the seat check reads the counter without a guard. */
  method RunChecks(key: string, details: Engine.Details, adding: bool, env: Env, store: SeatCounter) returns (o: Outcome)
    modifies store
    ensures o == Assess(key, details, adding, env, old(store.Stored(key)))
    ensures var s := SeatOutcome(old(store.Stored(key)), details.maxUsers, adding);
            store.counts == if s.Granted? then old(store.counts)[key := s.count] else old(store.counts)
    ensures store.unreadable == old(store.unreadable)
  {
    ghost var stored := store.Stored(key);
    var isValid, messages, country, mac, expiry := ChecksBeforeSeats(details, env);

    var checked := CheckUserCount(store, key, details.maxUsers, adding);
    if checked.Threw? {
      o := Raised(checked.error);
      AssessOfRaise(key, details, adding, env, stored);
      return;
    }
    var user := checked.value;
    if !user.valid {
      isValid := false;
      messages := messages + [user.message];
    }
    assert messages == Engine.Notices(country, mac, expiry, user);

    var summary := Engine.Summary(isValid, messages);
    var token := env.digest(Engine.TokenInput(key, isValid, env.isoDate(env.today)));
    o := Completed(Engine.Verification(isValid, summary,
           Engine.Report(key, details.tier, details.features, country, mac, expiry, user, token)));
    AssessOfChecks(key, details, adding, env, stored, country, mac, expiry, user);
  }

  /** A seat check that raises makes the whole evaluation raise the same error. */
  lemma AssessOfRaise(key: string, d: Engine.Details, adding: bool, env: Env, stored: ReadResult)
    requires SeatCheck(SeatOutcome(stored, d.maxUsers, adding), d.maxUsers).Threw?
    ensures Assess(key, d, adding, env, stored) == Raised(SeatCheck(SeatOutcome(stored, d.maxUsers, adding), d.maxUsers).error)
  {
  }

  /** Assess spelled out on the four check results of a completed evaluation. */
  lemma AssessOfChecks(key: string, d: Engine.Details, adding: bool, env: Env, stored: ReadResult,
                       c: Engine.CheckResult, m: Engine.CheckResult, e: Engine.CheckResult, u: Engine.CheckResult)
    requires c == CheckCountry(Engine.CurrentCountry(env.lookup), d.allowedCountries)
    requires m == CheckMac(env.systemMac, d.allowedMacs)
    requires e == Engine.CheckExpiry(env.parseDate(d.expiryDate), env.today)
    requires SeatCheck(SeatOutcome(stored, d.maxUsers, adding), d.maxUsers) == Returned(u)
    ensures var valid := c.valid && m.valid && e.valid && u.valid;
            Assess(key, d, adding, env, stored) ==
            Completed(Engine.Verification(valid, Engine.Summary(valid, Engine.Notices(c, m, e, u)),
              Engine.Report(key, d.tier, d.features, c, m, e, u, env.digest(Engine.TokenInput(key, valid, env.isoDate(env.today))))))
  {
  }

  /** The JSON object printed on standard output, without the details. */
  datatype CliOutput = CliOutput(valid: bool, message: string)

  /** The second argument selects a claim when it is "add-user" in any letter case. */
  predicate Adding(argv: seq<string>) {
    |argv| > 2 && Lower(argv[2]) == "add-user"
  }

  /** `main`: argv[0] is the script, argv[1] the key, argv[2] the optional mode.  The exit status
      reports whether a verdict was produced, not what the verdict was. */
  method RunCli(argv: seq<string>, env: Env, store: SeatCounter) returns (code: int, out: CliOutput)
    modifies store
    ensures |argv| < 2 ==> code == 1 && out == CliOutput(false, "License key required") && store.counts == old(store.counts)
    ensures |argv| >= 2 ==>
              var o := Evaluate(argv[1], Adding(argv), env, old(store.Stored(argv[1])));
              (code == 0 <==> o.Completed?) && (code == 1 <==> o.Raised?) &&
              (o.Completed? ==> out == CliOutput(o.v.valid, o.v.summary)) &&
              (o.Raised? ==> out == CliOutput(false, "Verification error: " + o.error))
    ensures |argv| >= 2 ==>
              var s := SeatOutcome(old(store.Stored(argv[1])),
                                   Engine.LicenseDetails(argv[1], [env.systemMac]).value.maxUsers, Adding(argv));
              store.counts == if s.Granted? then old(store.counts)[argv[1] := s.count] else old(store.counts)
    ensures store.unreadable == old(store.unreadable)
  {
    if |argv| < 2 {
      return 1, CliOutput(false, "License key required");
    }
    var key := argv[1];
    var mode := if |argv| > 2 then argv[2] else "verify";
    var addingUser := Lower(mode) == "add-user";
    assert addingUser == Adding(argv) by {
      if |argv| <= 2 {
        assert Lower("verify")[0] == 'v';
      }
    }
    var o := VerifyLicense(key, addingUser, env, store);
    match o
    case Completed(v) =>
      code, out := 0, CliOutput(v.valid, v.summary);
    case Raised(e) =>
      code, out := 1, CliOutput(false, "Verification error: " + e);
  }
}
