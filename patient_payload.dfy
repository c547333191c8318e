/** The patient form: the comma-separated lists of the medical information,
    the way an edited patient's lists are shown in the form, and the payload
    sent on save, where only filled-in fields are written and empty nested
    objects are dropped. */
module PatientPayload {
  import opened Common
  import Lists
  import Strings

  /** An element a comma list can carry through a save and a reload. */
  predicate CleanItem(x: string) {
    x != "" && Strings.IsTrimmed(x) && ',' !in x
  }

  /** Every piece, trimmed. */
  function TrimAll(pieces: seq<string>): (r: seq<string>)
    ensures |r| == |pieces|
    ensures forall i :: 0 <= i < |r| ==> r[i] == Strings.Trim(pieces[i])
  {
    seq(|pieces|, i requires 0 <= i < |pieces| => Strings.Trim(pieces[i]))
  }

  /** `field ? field.split(',').map(item => item.trim()).filter(Boolean) : []`. */
  function ParseList(field: string): (r: seq<string>)
    ensures field == "" ==> r == []
    ensures forall i :: 0 <= i < |r| ==> CleanItem(r[i])
  {
    if field == "" then []
    else
      var pieces := Strings.Split(field);
      var trimmed := TrimAll(pieces);
      assert forall j :: 0 <= j < |trimmed| ==> ',' !in trimmed[j] by {
        forall j | 0 <= j < |trimmed| ensures ',' !in trimmed[j] {
          var t := trimmed[j];
          forall k | 0 <= k < |t| ensures t[k] != ',' {
            assert t[k] == pieces[j][Strings.LeadingSpaces(pieces[j]) + k];
          }
        }
      }
      Lists.Filter(trimmed, (x: string) => x != "")
  }

  /** `list?.join(', ') || ''`: how a stored list is shown in the form when a
      patient is edited; a missing list shows as an empty field. */
  function ShowList(list: Option<seq<string>>): (r: string)
    ensures list.None? || list == Some([]) ==> r == ""
  {
    match list
    case None => ""
    case Some(xs) => Strings.Join(xs, ", ")
  }

  /** Splitting `p` followed by a list joined with ", ": one piece per
      element, the first glued to `p`, each later one led by the blank that
      follows its comma. */
  lemma {:induction false} SplitJoined(p: string, xs: seq<string>)
    requires ',' !in p
    requires |xs| >= 1 && forall i :: 0 <= i < |xs| ==> ',' !in xs[i]
    ensures var r := Strings.Split(p + Strings.Join(xs, ", "));
      && |r| == |xs| && r[0] == p + xs[0]
      && forall i :: 1 <= i < |xs| ==> r[i] == " " + xs[i]
    decreases |xs|
  {
    if |xs| == 1 {
      Strings.SplitCommaFree(p + xs[0]);
    } else {
      var rest := Strings.Join(xs[1..], ", ");
      assert p + Strings.Join(xs, ", ") == (p + xs[0]) + [','] + (" " + rest);
      Strings.SplitAtFirstComma(p + xs[0], " " + rest);
      SplitJoined(" ", xs[1..]);
      var r := Strings.Split(p + Strings.Join(xs, ", "));
      assert r == [p + xs[0]] + Strings.Split(" " + rest);
      forall i | 1 <= i < |xs| ensures r[i] == " " + xs[i] {
        assert r[i] == Strings.Split(" " + rest)[i - 1];
        assert xs[1..][i - 1] == xs[i];
      }
    }
  }

  /** Reloading a saved list and saving it again gives back the same list,
      as long as every element is non-empty, trimmed and free of commas. */
  lemma ListRoundTrip(xs: seq<string>)
    requires forall i :: 0 <= i < |xs| ==> CleanItem(xs[i])
    ensures ParseList(ShowList(Some(xs))) == xs
  {
    if xs != [] {
      var field := Strings.Join(xs, ", ");
      TrimJoined(xs);
      assert field != "" by {
        assert |field| >= |xs[0]|;
      }
      Lists.FilterKeepsAll(xs, (x: string) => x != "");
    }
  }

  /** Splitting a joined list of clean items and trimming the pieces gives
      back the items. */
  lemma TrimJoined(xs: seq<string>)
    requires xs != [] && forall i :: 0 <= i < |xs| ==> CleanItem(xs[i])
    ensures TrimAll(Strings.Split(Strings.Join(xs, ", "))) == xs
  {
    var field := Strings.Join(xs, ", ");
    SplitJoined("", xs);
    assert "" + field == field;
    TrimPieces(Strings.Split(field), xs);
  }

  /** Trimming the pieces of a joined list: the first piece is the first
      item, every other one an item after a blank. */
  lemma TrimPieces(pieces: seq<string>, xs: seq<string>)
    requires |pieces| == |xs| >= 1 && forall i :: 0 <= i < |xs| ==> CleanItem(xs[i])
    requires pieces[0] == "" + xs[0]
    requires forall i :: 1 <= i < |xs| ==> pieces[i] == " " + xs[i]
    ensures TrimAll(pieces) == xs
  {
    forall i | 0 <= i < |xs| ensures Strings.Trim(pieces[i]) == xs[i] {
      if i == 0 {
        assert pieces[0] == xs[0];
      } else {
        assert pieces[i] == " " + xs[i] + "";
        Strings.TrimPadded(" ", xs[i], "");
      }
    }
  }

  /** The text fields of the form as submitted; an untouched field is "". */
  datatype PatientForm = PatientForm(
    firstName: string,
    lastName: string,
    email: string,
    phone: string,
    dateOfBirth: string,
    gender: string,
    street: string,
    city: string,
    state: string,
    zipCode: string,
    country: string,
    contactName: string,
    contactPhone: string,
    contactRelationship: string,
    bloodType: string,
    allergies: string,
    medications: string,
    medicalHistory: string,
    insuranceProvider: string,
    insuranceNumber: string,
    notes: string)

  /** A nested object of the payload; `None` is a key that is not written. */
  datatype Address = Address(
    street: Option<string>,
    city: Option<string>,
    state: Option<string>,
    zipCode: Option<string>,
    country: Option<string>)

  datatype Contact = Contact(
    name: Option<string>,
    phone: Option<string>,
    relationship: Option<string>)

  datatype MedicalInfo = MedicalInfo(
    allergies: seq<string>,
    medications: seq<string>,
    medicalHistory: seq<string>,
    bloodType: Option<string>,
    insuranceProvider: Option<string>,
    insuranceNumber: Option<string>)

  /** The object sent to the server. */
  datatype Payload = Payload(
    firstName: string,
    lastName: string,
    phone: string,
    dateOfBirth: string,
    gender: string,
    email: Option<string>,
    notes: Option<string>,
    medicalInfo: MedicalInfo,
    address: Option<Address>,
    emergencyContact: Option<Contact>)

  function KeyOf(o: Option<string>): nat {
    if o.Some? then 1 else 0
  }

  /** `Object.keys(address).length`. */
  function AddressKeys(a: Address): (r: nat)
    ensures r == 0 <==> a.street.None? && a.city.None? && a.state.None?
                        && a.zipCode.None? && a.country.None?
  {
    KeyOf(a.street) + KeyOf(a.city) + KeyOf(a.state) + KeyOf(a.zipCode) + KeyOf(a.country)
  }

  /** `Object.keys(emergencyContact).length`. */
  function ContactKeys(c: Contact): (r: nat)
    ensures r == 0 <==> c.name.None? && c.phone.None? && c.relationship.None?
  {
    KeyOf(c.name) + KeyOf(c.phone) + KeyOf(c.relationship)
  }

  /** What the form's submit handler sends for the fields `data`. */
  function Formatted(data: PatientForm): (r: Payload)
    ensures r.firstName == data.firstName && r.lastName == data.lastName && r.phone == data.phone
    ensures r.dateOfBirth == data.dateOfBirth && r.gender == data.gender
    ensures r.email.Some? <==> Strings.Trim(data.email) != ""
    ensures r.email.Some? ==> r.email.value == Strings.Trim(data.email)
    ensures r.notes == IfPresent(data.notes)
    ensures r.medicalInfo.allergies == ParseList(data.allergies)
    ensures r.medicalInfo.medications == ParseList(data.medications)
    ensures r.medicalInfo.medicalHistory == ParseList(data.medicalHistory)
    ensures r.medicalInfo.bloodType == IfPresent(data.bloodType)
    ensures r.medicalInfo.insuranceProvider == IfPresent(data.insuranceProvider)
    ensures r.medicalInfo.insuranceNumber == IfPresent(data.insuranceNumber)
    ensures r.address.None? <==> data.street == "" && data.city == "" && data.state == ""
                                 && data.zipCode == "" && data.country == ""
    ensures r.address.Some? ==> r.address.value == Address(IfPresent(data.street), IfPresent(data.city),
                                   IfPresent(data.state), IfPresent(data.zipCode), IfPresent(data.country))
    ensures r.emergencyContact.None? <==> data.contactName == "" && data.contactPhone == ""
                                          && data.contactRelationship == ""
    ensures r.emergencyContact.Some? ==> r.emergencyContact.value == Contact(IfPresent(data.contactName),
                                            IfPresent(data.contactPhone), IfPresent(data.contactRelationship))
  {
    var email := Strings.Trim(data.email);
    Payload(
      data.firstName, data.lastName, data.phone, data.dateOfBirth, data.gender,
      if email != "" then Some(email) else None,
      IfPresent(data.notes),
      MedicalInfo(ParseList(data.allergies), ParseList(data.medications), ParseList(data.medicalHistory),
                  IfPresent(data.bloodType), IfPresent(data.insuranceProvider), IfPresent(data.insuranceNumber)),
      PruneAddress(FilledAddress(data)),
      PruneContact(FilledContact(data)))
  }

  /** The address object with a key for every filled-in address field. */
  function FilledAddress(data: PatientForm): Address {
    Address(IfPresent(data.street), IfPresent(data.city), IfPresent(data.state),
            IfPresent(data.zipCode), IfPresent(data.country))
  }

  /** The emergency contact with a key for every filled-in contact field. */
  function FilledContact(data: PatientForm): Contact {
    Contact(IfPresent(data.contactName), IfPresent(data.contactPhone), IfPresent(data.contactRelationship))
  }

  /** `delete` of an address object without keys. */
  function PruneAddress(a: Address): (r: Option<Address>)
    ensures r.None? <==> AddressKeys(a) == 0
    ensures r.Some? ==> r.value == a
  {
    if AddressKeys(a) == 0 then None else Some(a)
  }

  /** `delete` of an emergency contact without keys. */
  function PruneContact(c: Contact): (r: Option<Contact>)
    ensures r.None? <==> ContactKeys(c) == 0
    ensures r.Some? ==> r.value == c
  {
    if ContactKeys(c) == 0 then None else Some(c)
  }

  /** The submit handler's construction of the payload: the required fields
      first, then each optional key only when its field is filled in, then
      the nested objects left empty are deleted. */
  method BuildPayload(data: PatientForm) returns (p: Payload)
    ensures p == Formatted(data)
  {
    p := Payload(data.firstName, data.lastName, data.phone, data.dateOfBirth, data.gender,
                 None, None, MedicalInfo([], [], [], None, None, None), None, None);
    var trimmed := Strings.Trim(data.email);
    if data.email != "" && |trimmed| > 0 {
      p := p.(email := Some(trimmed));
    }
    if data.notes != "" {
      p := p.(notes := Some(data.notes));
    }
    var info := CollectMedicalInfo(data);
    p := p.(medicalInfo := info);
    var address := CollectAddress(data);
    p := p.(address := Some(address));
    var contact := CollectContact(data);
    p := p.(emergencyContact := Some(contact));

    // the nested objects are deleted again when they hold no key
    if AddressKeys(address) == 0 {
      p := p.(address := None);
    }
    if ContactKeys(contact) == 0 {
      p := p.(emergencyContact := None);
    }
  }

  /** The medical information of the payload: the three lists, then each
      optional key only when its field is filled in. */
  method CollectMedicalInfo(data: PatientForm) returns (info: MedicalInfo)
    ensures info == Formatted(data).medicalInfo
  {
    info := MedicalInfo(ParseList(data.allergies), ParseList(data.medications),
                        ParseList(data.medicalHistory), None, None, None);
    if data.bloodType != "" {
      info := info.(bloodType := Some(data.bloodType));
    }
    if data.insuranceProvider != "" {
      info := info.(insuranceProvider := Some(data.insuranceProvider));
    }
    if data.insuranceNumber != "" {
      info := info.(insuranceNumber := Some(data.insuranceNumber));
    }
  }

  /** The address object, one key per filled-in address field. */
  method CollectAddress(data: PatientForm) returns (address: Address)
    ensures address == FilledAddress(data)
  {
    address := Address(None, None, None, None, None);
    if data.street != "" { address := address.(street := Some(data.street)); }
    if data.city != "" { address := address.(city := Some(data.city)); }
    if data.state != "" { address := address.(state := Some(data.state)); }
    if data.zipCode != "" { address := address.(zipCode := Some(data.zipCode)); }
    if data.country != "" { address := address.(country := Some(data.country)); }
  }

  /** The emergency contact, one key per filled-in contact field. */
  method CollectContact(data: PatientForm) returns (contact: Contact)
    ensures contact == FilledContact(data)
  {
    contact := Contact(None, None, None);
    if data.contactName != "" { contact := contact.(name := Some(data.contactName)); }
    if data.contactPhone != "" { contact := contact.(phone := Some(data.contactPhone)); }
    if data.contactRelationship != "" { contact := contact.(relationship := Some(data.contactRelationship)); }
  }

  /** No nested object of a payload is written without a key in it. */
  lemma NoEmptyNestedObject(data: PatientForm)
    ensures Formatted(data).address.Some? ==> AddressKeys(Formatted(data).address.value) > 0
    ensures Formatted(data).emergencyContact.Some? ==> ContactKeys(Formatted(data).emergencyContact.value) > 0
  {
  }

  /** Every list of the payload consists of clean items, and saving those
      lists, reloading them into the form and saving again sends the same
      lists. */
  lemma ListsSurviveReload(data: PatientForm)
    ensures var info := Formatted(data).medicalInfo;
      && ParseList(ShowList(Some(info.allergies))) == info.allergies
      && ParseList(ShowList(Some(info.medications))) == info.medications
      && ParseList(ShowList(Some(info.medicalHistory))) == info.medicalHistory
  {
    var info := Formatted(data).medicalInfo;
    ListRoundTrip(info.allergies);
    ListRoundTrip(info.medications);
    ListRoundTrip(info.medicalHistory);
  }

  // ------------------------------------------- the create path, as written

  /** The form as the submit handler reads it on a new patient. The fourteen
      address, contact and medical inputs are registered under dotted names
      (`address.street`, `medicalInfo.allergies`, ...), which the form library
      hands over as nested objects (`data.address.street`); the handler reads
      the flat keys `data['address.street']`, which then hold nothing. */
  function ReadOnCreate(data: PatientForm): (r: PatientForm)
    ensures r.firstName == data.firstName && r.lastName == data.lastName && r.email == data.email
    ensures r.phone == data.phone && r.dateOfBirth == data.dateOfBirth && r.gender == data.gender
    ensures r.notes == data.notes
    ensures r.street == "" && r.city == "" && r.state == "" && r.zipCode == "" && r.country == ""
    ensures r.contactName == "" && r.contactPhone == "" && r.contactRelationship == ""
    ensures r.bloodType == "" && r.insuranceProvider == "" && r.insuranceNumber == ""
    ensures r.allergies == "" && r.medications == "" && r.medicalHistory == ""
  {
    data.(street := "", city := "", state := "", zipCode := "", country := "",
          contactName := "", contactPhone := "", contactRelationship := "",
          bloodType := "", insuranceProvider := "", insuranceNumber := "",
          allergies := "", medications := "", medicalHistory := "")
  }

  /** The payload the handler sends for a new patient, as written: the top
      fields as intended, but empty lists, no medical key, no address and no
      emergency contact, whatever was filled in. */
  function FormattedOnCreate(data: PatientForm): (r: Payload)
    ensures r.firstName == data.firstName && r.lastName == data.lastName && r.phone == data.phone
    ensures r.dateOfBirth == data.dateOfBirth && r.gender == data.gender
    ensures r.email == Formatted(data).email && r.notes == Formatted(data).notes
    ensures r.medicalInfo == MedicalInfo([], [], [], None, None, None)
    ensures r.address.None? && r.emergencyContact.None?
  {
    Formatted(ReadOnCreate(data))
  }

  /** The discrepancy: a new patient with a street, a contact name, a blood
      type or an allergy filled in loses it on the create path, where the
      intended payload keeps it. */
  lemma CreateLosesNestedFields(data: PatientForm)
    ensures data.street != "" ==>
      Formatted(data).address.Some? && Formatted(data).address.value.street == Some(data.street)
      && FormattedOnCreate(data).address.None?
    ensures data.contactName != "" ==>
      Formatted(data).emergencyContact.Some? && FormattedOnCreate(data).emergencyContact.None?
    ensures data.bloodType != "" ==>
      Formatted(data).medicalInfo.bloodType == Some(data.bloodType)
      && FormattedOnCreate(data).medicalInfo.bloodType.None?
    ensures data.allergies == "Peanuts" ==>
      Formatted(data).medicalInfo.allergies == ["Peanuts"] && FormattedOnCreate(data).medicalInfo.allergies == []
  {
    if data.allergies == "Peanuts" {
      ListRoundTrip(["Peanuts"]);
      assert ShowList(Some(["Peanuts"])) == "Peanuts";
    }
  }
}
