/**
 * The in-browser seat manager src/hooks/useLicenseDemo.ts: a list of
 * licenses and a list of demo users held as state, `addUser` / `removeUser`
 * that recompute both lists and replace them, a `verifyLicense` that stops
 * at the first failing check, and `getUsersByLicense`.  A new user's id
 * (the clock text in the hook) and the current instant are parameters.
 */
module Demo {
  import opened Common
  import opened Types

  datatype DemoUser = DemoUser(id: string, name: string, email: string, device: string, licenseId: string)

  /** The user details a caller supplies. */
  datatype NewUser = NewUser(name: string, email: string, device: string)

  /** A call that returns a value or throws an `Error` with a message. */
  datatype Attempt<T> = Done(value: T) | Thrown(message: string)

  /** `licenses.find(l => l.id === id)`, as the index of the first match. */
  function Find(ls: seq<License>, id: string): (k: Option<nat>)
    ensures k.Some? ==> k.value < |ls| && ls[k.value].id == id && forall j :: 0 <= j < k.value ==> ls[j].id != id
    ensures k.None? ==> forall j :: 0 <= j < |ls| ==> ls[j].id != id
  {
    FindBy(ls, (x: License) => x.id, id)
  }

  /** `users.find(u => u.id === id)`, as the index of the first match. */
  function FindUser(us: seq<DemoUser>, id: string): (k: Option<nat>)
    ensures k.Some? ==> k.value < |us| && us[k.value].id == id && forall j :: 0 <= j < k.value ==> us[j].id != id
    ensures k.None? ==> forall j :: 0 <= j < |us| ==> us[j].id != id
  {
    FindBy(us, (x: DemoUser) => x.id, id)
  }

  /** The type test the hook uses for seat counting (a comma-joined type counts too). */
  predicate SeatCounted(t: string) {
    t == UserCountBased || t == Mixed || ContainsSub(t, UserCountBased)
  }

  predicate AtLimit(l: License) {
    l.maxUsersAllowed.Some? && l.currentUsers.Some? && l.currentUsers.value >= l.maxUsersAllowed.value
  }

  function LimitMessage(l: License): string
    requires AtLimit(l)
  {
    "User limit reached (" + IntToString(l.currentUsers.value) + "/" + IntToString(l.maxUsersAllowed.value) + ")"
  }

  /** The license list after a seat is taken: every license with this id and a defined count
      counts one more. */
  function TakeSeat(ls: seq<License>, id: string): (r: seq<License>)
    ensures |r| == |ls|
    ensures forall i :: 0 <= i < |ls| ==> r[i].(currentUsers := ls[i].currentUsers) == ls[i]
    ensures forall i :: 0 <= i < |ls| ==>
              r[i].currentUsers == if ls[i].id == id && ls[i].currentUsers.Some? then Some(ls[i].currentUsers.value + 1)
                                   else ls[i].currentUsers
  {
    seq(|ls|, i requires 0 <= i < |ls| =>
      if ls[i].id == id && ls[i].currentUsers.Some? then ls[i].(currentUsers := Some(ls[i].currentUsers.value + 1)) else ls[i])
  }

  /** The license list after a seat is released: `Math.max(0, currentUsers - 1)`. */
  function ReleaseSeat(ls: seq<License>, id: string): (r: seq<License>)
    ensures |r| == |ls|
    ensures forall i :: 0 <= i < |ls| ==> r[i].(currentUsers := ls[i].currentUsers) == ls[i]
    ensures forall i :: 0 <= i < |ls| && ls[i].id != id ==> r[i] == ls[i]
    ensures forall i :: 0 <= i < |ls| && ls[i].id == id && ls[i].currentUsers.Some? ==>
              r[i].currentUsers == Some(if ls[i].currentUsers.value > 0 then ls[i].currentUsers.value - 1 else 0)
    ensures forall i :: 0 <= i < |ls| && ls[i].currentUsers.None? ==> r[i] == ls[i]
  {
    seq(|ls|, i requires 0 <= i < |ls| =>
      if ls[i].id == id && ls[i].currentUsers.Some? then
        ls[i].(currentUsers := Some(if ls[i].currentUsers.value - 1 > 0 then ls[i].currentUsers.value - 1 else 0))
      else ls[i])
  }

  /** `users.filter(u => u.licenseId === id)`. */
  function UsersOf(us: seq<DemoUser>, licenseId: string): (r: seq<DemoUser>)
    ensures forall u :: u in r <==> u in us && u.licenseId == licenseId
    ensures |r| <= |us|
  {
    if |us| == 0 then [] else
      var rest := UsersOf(us[..|us| - 1], licenseId);
      var last := us[|us| - 1];
      assert us == us[..|us| - 1] + [last];
      if last.licenseId == licenseId then rest + [last] else rest
  }

  /** `users.filter(u => u.id !== id)`. */
  function WithoutUser(us: seq<DemoUser>, userId: string): (r: seq<DemoUser>)
    ensures forall u :: u in r <==> u in us && u.id != userId
    ensures |r| <= |us|
  {
    if |us| == 0 then [] else
      var rest := WithoutUser(us[..|us| - 1], userId);
      var last := us[|us| - 1];
      assert us == us[..|us| - 1] + [last];
      if last.id != userId then rest + [last] else rest
  }

  /** getUsersByLicense after an append: the old users of that license, then the new one if it belongs. */
  lemma UsersOfAppend(us: seq<DemoUser>, u: DemoUser, licenseId: string)
    ensures UsersOf(us + [u], licenseId) == UsersOf(us, licenseId) + (if u.licenseId == licenseId then [u] else [])
  {
    assert (us + [u])[..|us|] == us;
  }

  /** Removing a just-added user whose id is new gives back the old user list. */
  lemma {:induction false} RemoveUndoesAddOfUsers(us: seq<DemoUser>, u: DemoUser)
    requires forall j :: 0 <= j < |us| ==> us[j].id != u.id
    ensures WithoutUser(us + [u], u.id) == us
    decreases |us|
  {
    assert (us + [u])[..|us|] == us;
    WithoutAllKeeps(us, u.id);
  }

  lemma {:induction false} WithoutAllKeeps(us: seq<DemoUser>, userId: string)
    requires forall j :: 0 <= j < |us| ==> us[j].id != userId
    ensures WithoutUser(us, userId) == us
    decreases |us|
  {
    if |us| > 0 {
      WithoutAllKeeps(us[..|us| - 1], userId);
      assert us == us[..|us| - 1] + [us[|us| - 1]];
    }
  }

  /** A released seat undoes a taken one when the counts of that license are not negative. */
  lemma ReleaseUndoesTake(ls: seq<License>, id: string)
    requires forall i :: 0 <= i < |ls| && ls[i].id == id && ls[i].currentUsers.Some? ==> ls[i].currentUsers.value >= 0
    ensures ReleaseSeat(TakeSeat(ls, id), id) == ls
  {
    var r := ReleaseSeat(TakeSeat(ls, id), id);
    assert forall i :: 0 <= i < |ls| ==> r[i] == ls[i];
  }

  predicate UniqueIds(ls: seq<License>) {
    forall i, j :: 0 <= i < j < |ls| ==> ls[i].id != ls[j].id
  }

  /** Every seat-counted license with a limit and a count is within its limit. */
  predicate WithinLimits(ls: seq<License>) {
    forall i :: 0 <= i < |ls| && SeatCounted(ls[i].licenseType) && ls[i].maxUsersAllowed.Some? && ls[i].currentUsers.Some? ==>
      ls[i].currentUsers.value <= ls[i].maxUsersAllowed.value
  }

  /** The seat the hook grants never takes a license past its limit (ids being unique). */
  lemma TakeSeatKeepsLimits(ls: seq<License>, id: string)
    requires UniqueIds(ls) && WithinLimits(ls)
    requires Find(ls, id).Some? && !AtLimit(ls[Find(ls, id).value])
    ensures WithinLimits(TakeSeat(ls, id))
  {
    var k := Find(ls, id).value;
    var r := TakeSeat(ls, id);
    forall i | 0 <= i < |ls| && SeatCounted(r[i].licenseType) && r[i].maxUsersAllowed.Some? && r[i].currentUsers.Some?
      ensures r[i].currentUsers.value <= r[i].maxUsersAllowed.value
    {
    }
  }

  /** The parameters of verifyLicense; None is `undefined`. */
  datatype VerifyParams = VerifyParams(
    macAddress: Option<string>,
    countryCode: Option<string>,
    addUser: bool,
    username: Option<string>,
    email: Option<string>,
    device: Option<string>)

  /** The answer of verifyLicense: the verdict, one message and the license it looked at. */
  datatype DemoResult = DemoResult(isValid: bool, message: string, license: Option<License>)

  predicate Lapsed(l: License, now: int) {
    l.expiryDate.Some? && l.expiryDate.value < now
  }

  predicate MacRefused(l: License, mac: Option<string>) {
    (l.licenseType == MacBased || ContainsSub(l.licenseType, MacBased)) && l.macAddresses.Some? && Truthy(mac) &&
    mac.value !in l.macAddresses.value
  }

  predicate CountryRefused(l: License, country: Option<string>) {
    (l.licenseType == CountryBased || ContainsSub(l.licenseType, CountryBased)) && l.allowedCountries.Some? &&
    Truthy(country) && country.value !in l.allowedCountries.value
  }

  predicate SeatRuleApplies(l: License) {
    SeatCounted(l.licenseType) && l.maxUsersAllowed.Some? && l.currentUsers.Some?
  }

  predicate SeatRefused(l: License, params: VerifyParams) {
    SeatRuleApplies(l) && params.addUser && AtLimit(l)
  }

  /** A passing verification that also registers the user. */
  predicate Registers(l: License, params: VerifyParams) {
    SeatRuleApplies(l) && params.addUser && Truthy(params.username) && Truthy(params.email)
  }

  function ExpiryNote(l: License, now: int): string {
    if l.expiryDate.Some? && CeilDiv(l.expiryDate.value - now, DayMs) <= 30 then
      "License will expire in " + IntToString(CeilDiv(l.expiryDate.value - now, DayMs)) + " days"
    else "License is valid"
  }

  /** The answer for a found license: the first failing check in the order expired, MAC,
      country, user limit; otherwise valid with the expiry note. */
  function CheckFound(l: License, params: VerifyParams, now: int): DemoResult {
    if Lapsed(l, now) then DemoResult(false, "License has expired", Some(l))
    else if MacRefused(l, params.macAddress) then DemoResult(false, "MAC address not authorized for this license", Some(l))
    else if CountryRefused(l, params.countryCode) then
      DemoResult(false, "Country " + params.countryCode.value + " not authorized for this license", Some(l))
    else if SeatRefused(l, params) then DemoResult(false, LimitMessage(l), Some(l))
    else DemoResult(true, ExpiryNote(l, now), Some(l))
  }

  /** verifyLicense's answer: "License not found" first, then the checks of the found license. */
  function Check(ls: seq<License>, id: string, params: VerifyParams, now: int): (r: DemoResult)
    ensures r.license.Some? <==> exists k :: 0 <= k < |ls| && ls[k].id == id
    ensures r.license.Some? ==> r.license.value.id == id
    ensures r.license.None? ==> !r.isValid && r.message == "License not found"
  {
    match Find(ls, id)
    case None => DemoResult(false, "License not found", None)
    case Some(k) => CheckFound(ls[k], params, now)
  }

  /** The early-return chain of verifyLicense on a found license. */
  method Decide(l: License, params: VerifyParams, now: int) returns (r: DemoResult)
    ensures r == CheckFound(l, params, now)
  {
    if l.expiryDate.Some? && l.expiryDate.value < now {
      return DemoResult(false, "License has expired", Some(l));
    }
    assert !Lapsed(l, now);
    if (l.licenseType == MacBased || ContainsSub(l.licenseType, MacBased)) && l.macAddresses.Some? && Truthy(params.macAddress) {
      if params.macAddress.value !in l.macAddresses.value {
        assert MacRefused(l, params.macAddress);
        return DemoResult(false, "MAC address not authorized for this license", Some(l));
      }
    }
    assert !MacRefused(l, params.macAddress);
    if (l.licenseType == CountryBased || ContainsSub(l.licenseType, CountryBased)) && l.allowedCountries.Some? &&
       Truthy(params.countryCode) {
      if params.countryCode.value !in l.allowedCountries.value {
        assert CountryRefused(l, params.countryCode);
        return DemoResult(false, "Country " + params.countryCode.value + " not authorized for this license", Some(l));
      }
    }
    assert !CountryRefused(l, params.countryCode);
    if SeatCounted(l.licenseType) && l.maxUsersAllowed.Some? && l.currentUsers.Some? {
      if params.addUser && l.currentUsers.value >= l.maxUsersAllowed.value {
        assert SeatRefused(l, params);
        return DemoResult(false, LimitMessage(l), Some(l));
      }
    }
    assert !SeatRefused(l, params);
    r := DemoResult(true, ExpiryNote(l, now), Some(l));
  }

  /** The verdict is positive exactly when the license is found and no check fails. */
  lemma CheckValidIff(ls: seq<License>, id: string, params: VerifyParams, now: int)
    ensures Check(ls, id, params, now).isValid <==>
            Find(ls, id).Some? &&
            var l := ls[Find(ls, id).value];
            !Lapsed(l, now) && !MacRefused(l, params.macAddress) && !CountryRefused(l, params.countryCode) &&
            !SeatRefused(l, params)
  {
  }

  /** The first failing check decides the message: an expired license reports expiry whatever
      else is wrong with the request. */
  lemma ExpiryIsReportedFirst(ls: seq<License>, id: string, params: VerifyParams, now: int)
    requires Find(ls, id).Some? && Lapsed(ls[Find(ls, id).value], now)
    ensures Check(ls, id, params, now) == DemoResult(false, "License has expired", Some(ls[Find(ls, id).value]))
  {
  }

  /** A passing verdict carries a countdown of 0..30 days exactly when the expiry is at most 30
      days away, and "License is valid" otherwise. */
  lemma PassingMessage(ls: seq<License>, id: string, params: VerifyParams, now: int)
    requires Check(ls, id, params, now).isValid
    ensures var l := ls[Find(ls, id).value];
            var m := Check(ls, id, params, now).message;
            (m == "License is valid") <==> !(l.expiryDate.Some? && l.expiryDate.value - now <= 30 * DayMs)
    ensures var l := ls[Find(ls, id).value];
            l.expiryDate.Some? ==> 0 <= CeilDiv(l.expiryDate.value - now, DayMs)
  {
    var l := ls[Find(ls, id).value];
    var m := Check(ls, id, params, now).message;
    if l.expiryDate.Some? {
      CeilDivAtMost(l.expiryDate.value - now, DayMs, 30);
      CeilDivNonNegative(l.expiryDate.value - now, DayMs);
      if CeilDiv(l.expiryDate.value - now, DayMs) <= 30 {
        assert m[0] == "License will expire in "[0];
        assert m[8] == 'w' && "License is valid"[8] == 'i';
      }
    }
  }

  /** A MAC-based license with an empty allowed list refuses every MAC that is given. */
  lemma EmptyMacListRefuses(l: License, mac: string)
    requires l.licenseType == MacBased && l.macAddresses == Some([]) && mac != ""
    ensures MacRefused(l, Some(mac))
  {
  }

  /** A verification that passes and registers its user. */
  predicate Claims(ls: seq<License>, id: string, params: VerifyParams, now: int) {
    Find(ls, id).Some? && CheckFound(ls[Find(ls, id).value], params, now).isValid && Registers(ls[Find(ls, id).value], params)
  }

  /** Claims on a found license, unfolded; a claim that passes found a free seat. */
  lemma ClaimsOfFound(ls: seq<License>, id: string, params: VerifyParams, now: int)
    requires Find(ls, id).Some?
    ensures Claims(ls, id, params, now) <==>
            CheckFound(ls[Find(ls, id).value], params, now).isValid && Registers(ls[Find(ls, id).value], params)
    ensures Claims(ls, id, params, now) ==> !Refuses(ls[Find(ls, id).value])
  {
  }

  /** `params.device || 'Unknown device'`. */
  function DeviceOf(params: VerifyParams): string {
    if Truthy(params.device) then params.device.value else "Unknown device"
  }

  /** addUser's refusal of a license at its limit. */
  predicate Refuses(l: License) {
    SeatCounted(l.licenseType) && AtLimit(l)
  }

  /** The hook's state. */
  class LicenseDemo {
    var licenses: seq<License>
    var users: seq<DemoUser>

    constructor (ls: seq<License>, us: seq<DemoUser>)
      ensures licenses == ls && users == us
    {
      licenses, users := ls, us;
    }

    /** addUser: throws for an unknown license or a seat-counted license at its limit; otherwise
        appends exactly one user and, for a seat-counted type, takes a seat. */
    method AddUser(licenseId: string, user: NewUser, newId: string) returns (r: Attempt<DemoUser>)
      modifies this
      ensures Find(old(licenses), licenseId).None? ==>
                r == Thrown("License not found") && licenses == old(licenses) && users == old(users)
      ensures Find(old(licenses), licenseId).Some? && Refuses(old(licenses)[Find(old(licenses), licenseId).value]) ==>
                r == Thrown(LimitMessage(old(licenses)[Find(old(licenses), licenseId).value])) &&
                licenses == old(licenses) && users == old(users)
      ensures Find(old(licenses), licenseId).Some? && !Refuses(old(licenses)[Find(old(licenses), licenseId).value]) ==>
                r == Done(DemoUser(newId, user.name, user.email, user.device, licenseId)) &&
                users == old(users) + [r.value] &&
                licenses == if SeatCounted(old(licenses)[Find(old(licenses), licenseId).value].licenseType)
                            then TakeSeat(old(licenses), licenseId) else old(licenses)
    {
      var k := Find(licenses, licenseId);
      if k.None? {
        return Thrown("License not found");
      }
      var l := licenses[k.value];
      if SeatCounted(l.licenseType) {
        if l.maxUsersAllowed.Some? && l.currentUsers.Some? && l.currentUsers.value >= l.maxUsersAllowed.value {
          return Thrown(LimitMessage(l));
        }
        licenses := TakeSeat(licenses, licenseId);
      }
      var created := DemoUser(newId, user.name, user.email, user.device, licenseId);
      users := users + [created];
      r := Done(created);
    }

    /** removeUser: throws for an unknown user; otherwise releases a seat of its license and
        removes every user with that id. */
    method RemoveUser(userId: string) returns (r: Attempt<()>)
      modifies this
      ensures FindUser(old(users), userId).None? ==>
                r == Thrown("User not found") && licenses == old(licenses) && users == old(users)
      ensures FindUser(old(users), userId).Some? ==>
                var u := old(users)[FindUser(old(users), userId).value];
                var k := Find(old(licenses), u.licenseId);
                r == Done(()) && users == WithoutUser(old(users), userId) &&
                licenses == if k.Some? && SeatCounted(old(licenses)[k.value].licenseType)
                            then ReleaseSeat(old(licenses), u.licenseId) else old(licenses)
    {
      var j := FindUser(users, userId);
      if j.None? {
        return Thrown("User not found");
      }
      var u := users[j.value];
      var k := Find(licenses, u.licenseId);
      if k.Some? && SeatCounted(licenses[k.value].licenseType) {
        licenses := ReleaseSeat(licenses, u.licenseId);
      }
      users := WithoutUser(users, userId);
      r := Done(());
    }

    /** getUsersByLicense. */
    function GetUsersByLicense(licenseId: string): (r: seq<DemoUser>)
      reads this
      ensures forall u :: u in r <==> u in users && u.licenseId == licenseId
    {
      UsersOf(users, licenseId)
    }

    /** verifyLicense: the answer is Check's; a passing claim with a name and an e-mail also
        registers the user through addUser. */
    method VerifyLicense(licenseId: string, params: VerifyParams, now: int, newId: string) returns (r: DemoResult)
      modifies this
      ensures r == Check(old(licenses), licenseId, params, now)
      ensures Claims(old(licenses), licenseId, params, now) ==>
                users == old(users) + [DemoUser(newId, params.username.value, params.email.value, DeviceOf(params), licenseId)] &&
                licenses == TakeSeat(old(licenses), licenseId)
      ensures !Claims(old(licenses), licenseId, params, now) ==> licenses == old(licenses) && users == old(users)
    {
      var k := Find(licenses, licenseId);
      if k.None? {
        return DemoResult(false, "License not found", None);
      }
      var l := licenses[k.value];
      r := Decide(l, params, now);
      ClaimsOfFound(licenses, licenseId, params, now);
      if r.isValid && SeatCounted(l.licenseType) && l.maxUsersAllowed.Some? && l.currentUsers.Some? {
        if params.addUser && Truthy(params.username) && Truthy(params.email) {
          var added := AddUser(licenseId, NewUser(params.username.value, params.email.value, DeviceOf(params)), newId);
          return;
        }
      }
    }
  }
}
