/**
 * The list and flag maintenance of src/components/CreateLicenseForm.tsx:
 * the four license-type flags set from a comma-separated selection, the
 * duplicate-free MAC and country lists with their comma-joined form fields,
 * and the derivation of the submitted license type from the flags.  The
 * component's state is a class; each handler replaces fields of it.
 */
module LicenseForm {
  import opened Common
  import opened Types

  predicate NoDuplicates(xs: seq<string>) {
    forall i, j :: 0 <= i < j < |xs| ==> xs[i] != xs[j]
  }

  /** The list after an add: a non-empty value not yet present is appended; anything else
      leaves the list as it is. */
  function AddUnique(xs: seq<string>, x: string): (r: seq<string>)
    ensures x != "" && x !in xs ==> r == xs + [x]
    ensures x == "" || x in xs ==> r == xs
    ensures NoDuplicates(xs) ==> NoDuplicates(r)
  {
    if x != "" && x !in xs then xs + [x] else xs
  }

  /** `xs.filter(y => y !== x)`. */
  function RemoveAll(xs: seq<string>, x: string): (r: seq<string>)
    ensures forall y :: y in r <==> y in xs && y != x
    ensures NoDuplicates(xs) ==> NoDuplicates(r)
    decreases |xs|
  {
    if xs == [] then []
    else
      var rest := RemoveAll(xs[1..], x);
      assert forall y :: y in xs[1..] ==> y in xs;
      assert NoDuplicates(xs) ==> NoDuplicates(xs[1..]) && xs[0] !in xs[1..];
      if xs[0] == x then rest else [xs[0]] + rest
  }

  lemma {:induction false} RemoveAbsent(xs: seq<string>, x: string)
    requires x !in xs
    ensures RemoveAll(xs, x) == xs
    decreases |xs|
  {
    if xs != [] {
      RemoveAbsent(xs[1..], x);
      assert xs == [xs[0]] + xs[1..];
    }
  }

  /** In a duplicate-free list, removing an element drops exactly its position and keeps the
      others in order. */
  lemma {:induction false} RemoveAt(xs: seq<string>, i: int)
    requires NoDuplicates(xs) && 0 <= i < |xs|
    ensures RemoveAll(xs, xs[i]) == xs[..i] + xs[i + 1..]
    decreases i
  {
    assert NoDuplicates(xs[1..]);
    if i == 0 {
      assert xs[0] !in xs[1..];
      RemoveAbsent(xs[1..], xs[0]);
    } else {
      assert xs[1..][i - 1] == xs[i] && xs[0] != xs[i];
      RemoveAt(xs[1..], i - 1);
      assert xs[..i] == [xs[0]] + xs[1..][..i - 1];
      assert xs[i + 1..] == xs[1..][i..];
    }
  }

  /** Removing a value that was just added gives back the list before the add. */
  lemma RemoveUndoesAdd(xs: seq<string>, x: string)
    requires x != "" && x !in xs
    ensures RemoveAll(AddUnique(xs, x), x) == xs
  {
    RemoveAbsentAppend(xs, x);
  }

  lemma {:induction false} RemoveAbsentAppend(xs: seq<string>, x: string)
    requires x !in xs
    ensures RemoveAll(xs + [x], x) == xs
    decreases |xs|
  {
    var ys := xs + [x];
    if xs == [] {
      assert ys[1..] == [];
    } else {
      assert ys[1..] == xs[1..] + [x];
      RemoveAbsentAppend(xs[1..], x);
      assert xs == [xs[0]] + xs[1..];
    }
  }

  function Count(b: bool): int {
    if b then 1 else 0
  }

  /** The license type onSubmit derives from the flags. */
  function DeriveLicenseType(date: bool, users: bool, mac: bool, country: bool): (t: string)
    ensures t == DateBased <==> date && !users && !mac && !country
    ensures t == UserCountBased <==> !date && users && !mac && !country
    ensures t == MacBased <==> !date && !users && mac && !country
    ensures t == CountryBased <==> !date && !users && !mac && country
    ensures t == Mixed <==> Count(date) + Count(users) + Count(mac) + Count(country) != 1
  {
    if date && !users && !mac && !country then DateBased
    else if !date && users && !mac && !country then UserCountBased
    else if !date && !users && mac && !country then MacBased
    else if !date && !users && !mac && country then CountryBased
    else Mixed
  }

  /** A comma-joined selection of comma-free names sets exactly the flags whose names it holds. */
  lemma SelectionSetsFlags(names: seq<string>, name: string)
    requires forall i :: 0 <= i < |names| ==> ',' !in names[i]
    requires name != ""
    ensures name in Split(Join(names, ","), ',') <==> name in names
  {
    if |names| == 0 {
      assert Split("", ',') == [""];
    } else {
      SplitJoin(names, ',');
    }
  }

  /** What onSubmit records besides the form fields: the derived type and the non-empty lists. */
  datatype Submission = Submission(licenseType: string, macAddresses: Option<seq<string>>, allowedCountries: Option<seq<string>>)

  /** The component's state. */
  class FormState {
    var isDateBased: bool
    var isUserCountBased: bool
    var isMacBased: bool
    var isCountryBased: bool
    var macAddresses: seq<string>
    var newMacAddress: string
    var allowedCountries: seq<string>
    var newCountry: string
    var licenseTypeField: string
    var macAddressesField: Option<string>       // the form value "macAddresses"; None until first set
    var allowedCountriesField: Option<string>

    /** The lists have no duplicates and no empty entries, and each form field is the comma-join
        of its list once it has been set. */
    predicate Valid()
      reads this
    {
      NoDuplicates(macAddresses) && "" !in macAddresses &&
      NoDuplicates(allowedCountries) && "" !in allowedCountries &&
      (macAddressesField.Some? ==> macAddressesField.value == Join(macAddresses, ",")) &&
      (macAddressesField.None? ==> macAddresses == []) &&
      (allowedCountriesField.Some? ==> allowedCountriesField.value == Join(allowedCountries, ",")) &&
      (allowedCountriesField.None? ==> allowedCountries == [])
    }

    /** The license-type selection: the four flags and the form's "licenseType" value. */
    function Selection(): (bool, bool, bool, bool, string)
      reads this
    {
      (isDateBased, isUserCountBased, isMacBased, isCountryBased, licenseTypeField)
    }

    constructor ()
      ensures Valid()
      ensures !isDateBased && !isUserCountBased && !isMacBased && !isCountryBased
      ensures macAddresses == [] && allowedCountries == [] && newMacAddress == "" && newCountry == ""
    {
      isDateBased, isUserCountBased, isMacBased, isCountryBased := false, false, false, false;
      macAddresses, newMacAddress, allowedCountries, newCountry := [], "", [], "";
      licenseTypeField, macAddressesField, allowedCountriesField := "", None, None;
    }

    /** handleLicenseTypeChange: each flag is set exactly when its name is among the
        comma-separated parts. */
    method HandleLicenseTypeChange(t: string)
      requires Valid()
      modifies this
      ensures Valid()
      ensures isDateBased == (DateBased in Split(t, ',')) && isUserCountBased == (UserCountBased in Split(t, ','))
      ensures isMacBased == (MacBased in Split(t, ',')) && isCountryBased == (CountryBased in Split(t, ','))
      ensures licenseTypeField == t
      ensures macAddresses == old(macAddresses) && allowedCountries == old(allowedCountries)
      ensures macAddressesField == old(macAddressesField) && allowedCountriesField == old(allowedCountriesField)
      ensures newMacAddress == old(newMacAddress) && newCountry == old(newCountry)
    {
      var types := Split(t, ',');
      isDateBased := DateBased in types;
      isUserCountBased := UserCountBased in types;
      isMacBased := MacBased in types;
      isCountryBased := CountryBased in types;
      licenseTypeField := t;
    }

    method SetNewMacAddress(s: string)
      requires Valid()
      modifies this
      ensures Valid() && newMacAddress == s
      ensures macAddresses == old(macAddresses) && allowedCountries == old(allowedCountries)
      ensures macAddressesField == old(macAddressesField) && allowedCountriesField == old(allowedCountriesField)
      ensures newCountry == old(newCountry) && Selection() == old(Selection())
    {
      newMacAddress := s;
    }

    method SetNewCountry(s: string)
      requires Valid()
      modifies this
      ensures Valid() && newCountry == s
      ensures macAddresses == old(macAddresses) && allowedCountries == old(allowedCountries)
      ensures macAddressesField == old(macAddressesField) && allowedCountriesField == old(allowedCountriesField)
      ensures newMacAddress == old(newMacAddress) && Selection() == old(Selection())
    {
      newCountry := s;
    }

    /** addMacAddress: a new non-empty value is appended, the form field re-joined and the input
        cleared; otherwise nothing changes. */
    method AddMacAddress()
      requires Valid()
      modifies this
      ensures Valid()
      ensures macAddresses == AddUnique(old(macAddresses), old(newMacAddress))
      ensures old(newMacAddress) != "" && old(newMacAddress) !in old(macAddresses) ==>
                newMacAddress == "" && macAddressesField == Some(Join(macAddresses, ","))
      ensures !(old(newMacAddress) != "" && old(newMacAddress) !in old(macAddresses)) ==>
                newMacAddress == old(newMacAddress) && macAddressesField == old(macAddressesField)
      ensures allowedCountries == old(allowedCountries) && allowedCountriesField == old(allowedCountriesField)
      ensures newCountry == old(newCountry) && Selection() == old(Selection())
    {
      if newMacAddress != "" && newMacAddress !in macAddresses {
        var updated := macAddresses + [newMacAddress];
        macAddresses := updated;
        macAddressesField := Some(Join(updated, ","));
        newMacAddress := "";
      }
    }

    /** removeMacAddress: every copy of the value is dropped and the form field re-joined. */
    method RemoveMacAddress(mac: string)
      requires Valid()
      modifies this
      ensures Valid()
      ensures macAddresses == RemoveAll(old(macAddresses), mac)
      ensures macAddressesField == Some(Join(macAddresses, ","))
      ensures allowedCountries == old(allowedCountries) && allowedCountriesField == old(allowedCountriesField)
      ensures newMacAddress == old(newMacAddress) && newCountry == old(newCountry)
      ensures Selection() == old(Selection())
    {
      var updated := RemoveAll(macAddresses, mac);
      macAddresses := updated;
      macAddressesField := Some(Join(updated, ","));
    }

    /** addCountry, with the same rules as addMacAddress. */
    method AddCountry()
      requires Valid()
      modifies this
      ensures Valid()
      ensures allowedCountries == AddUnique(old(allowedCountries), old(newCountry))
      ensures old(newCountry) != "" && old(newCountry) !in old(allowedCountries) ==>
                newCountry == "" && allowedCountriesField == Some(Join(allowedCountries, ","))
      ensures !(old(newCountry) != "" && old(newCountry) !in old(allowedCountries)) ==>
                newCountry == old(newCountry) && allowedCountriesField == old(allowedCountriesField)
      ensures macAddresses == old(macAddresses) && macAddressesField == old(macAddressesField)
      ensures newMacAddress == old(newMacAddress) && Selection() == old(Selection())
    {
      if newCountry != "" && newCountry !in allowedCountries {
        var updated := allowedCountries + [newCountry];
        allowedCountries := updated;
        allowedCountriesField := Some(Join(updated, ","));
        newCountry := "";
      }
    }

    /** removeCountry, with the same rules as removeMacAddress. */
    method RemoveCountry(country: string)
      requires Valid()
      modifies this
      ensures Valid()
      ensures allowedCountries == RemoveAll(old(allowedCountries), country)
      ensures allowedCountriesField == Some(Join(allowedCountries, ","))
      ensures macAddresses == old(macAddresses) && macAddressesField == old(macAddressesField)
      ensures newCountry == old(newCountry) && newMacAddress == old(newMacAddress)
      ensures Selection() == old(Selection())
    {
      var updated := RemoveAll(allowedCountries, country);
      allowedCountries := updated;
      allowedCountriesField := Some(Join(updated, ","));
    }

    /** onSubmit: the type derived from the flags and the lists (undefined when empty); then the
        form is reset to its defaults (no type, no list values), and the lists and the flags are
        cleared.  The two text inputs are not part of the form and keep their text. */
    method Submit() returns (s: Submission)
      requires Valid()
      modifies this
      ensures s.licenseType == DeriveLicenseType(old(isDateBased), old(isUserCountBased), old(isMacBased), old(isCountryBased))
      ensures s.macAddresses == if |old(macAddresses)| > 0 then Some(old(macAddresses)) else None
      ensures s.allowedCountries == if |old(allowedCountries)| > 0 then Some(old(allowedCountries)) else None
      ensures Valid()
      ensures !isDateBased && !isUserCountBased && !isMacBased && !isCountryBased
      ensures macAddresses == [] && allowedCountries == []
      ensures licenseTypeField == "" && macAddressesField.None? && allowedCountriesField.None?
      ensures newMacAddress == old(newMacAddress) && newCountry == old(newCountry)
    {
      var licenseType := DeriveLicenseType(isDateBased, isUserCountBased, isMacBased, isCountryBased);
      s := Submission(licenseType,
                      if |macAddresses| > 0 then Some(macAddresses) else None,
                      if |allowedCountries| > 0 then Some(allowedCountries) else None);
      licenseTypeField, macAddressesField, allowedCountriesField := "", None, None;
      macAddresses, allowedCountries := [], [];
      isDateBased, isUserCountBased, isMacBased, isCountryBased := false, false, false, false;
    }
  }

  /** Selecting "mac_based", typing a MAC and adding it, then submitting: the submission is a
      MAC-based license listing that MAC, since the MAC handlers leave the type selection alone. */
  method MacOnlyLicense(f: FormState, mac: string) returns (s: Submission)
    requires f.Valid() && mac != "" && mac !in f.macAddresses
    modifies f
    ensures s.licenseType == MacBased
    ensures s.macAddresses.Some? && mac in s.macAddresses.value
  {
    f.HandleLicenseTypeChange(MacBased);
    SelectionSetsFlags([MacBased], MacBased);
    SelectionSetsFlags([MacBased], DateBased);
    SelectionSetsFlags([MacBased], UserCountBased);
    SelectionSetsFlags([MacBased], CountryBased);
    f.SetNewMacAddress(mac);
    f.AddMacAddress();
    s := f.Submit();
  }
}
