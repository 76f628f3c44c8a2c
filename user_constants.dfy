/** The Gender and UserStatus enums of client/src/constants/user.constants.ts and getGenderLabel. */
module UserConstants {
  import opened Results

  /** `enum Gender { MALE = 'M', FEMALE = 'F' }`. */
  datatype Gender = Male | Female
  {
    /** The enum member's value. */
    function Value(): string
    {
      match this
      case Male => "M"
      case Female => "F"
    }

    /** The enum member's key. */
    function Key(): string
    {
      match this
      case Male => "MALE"
      case Female => "FEMALE"
    }
  }

  /** `enum UserStatus { ACTIVE = 'ACTIVE', INACTIVE = 'INACTIVE' }`. */
  datatype UserStatus = Active | Inactive
  {
    function Value(): string
    {
      match this
      case Active => "ACTIVE"
      case Inactive => "INACTIVE"
    }

    function Key(): string
    {
      match this
      case Active => "ACTIVE"
      case Inactive => "INACTIVE"
    }
  }

  /** `Object.entries(Gender)`: key/value pairs in declaration order. */
  const GenderEntries: seq<(string, string)> := [(Male.Key(), Male.Value()), (Female.Key(), Female.Value())]

  /** `entries.find(([, v]) => v === value)`, as the index of the first entry with that value. */
  function FindByValue(entries: seq<(string, string)>, value: string): (r: Option<nat>)
    ensures r.None? <==> forall i :: 0 <= i < |entries| ==> entries[i].1 != value
    ensures r.Some? ==> r.value < |entries| && entries[r.value].1 == value
    ensures r.Some? ==> forall j :: 0 <= j < r.value ==> entries[j].1 != value
  {
    if entries == [] then None
    else if entries[0].1 == value then Some(0)
    else match FindByValue(entries[1..], value)
      case None => None
      case Some(i) => Some(i + 1)
  }

  /** getGenderLabel: the key whose value is `gender`, or "N/A" (also when the key is empty). */
  function GetGenderLabel(gender: string): (r: string)
    ensures (exists g: Gender :: g.Value() == gender && r == g.Key())
         || (r == "N/A" && forall g: Gender :: g.Value() != gender)
  {
    match FindByValue(GenderEntries, gender)
    case Some(i) => if GenderEntries[i].0 != "" then GenderEntries[i].0 else "N/A"
    case None => "N/A"
  }

  lemma LabelOfMale()
    ensures GetGenderLabel("M") == "MALE"
  {
  }

  lemma LabelOfFemale()
    ensures GetGenderLabel("F") == "FEMALE"
  {
  }

  /** Every enum value maps back to its own key. */
  lemma LabelRoundTrip(g: Gender)
    ensures GetGenderLabel(g.Value()) == g.Key()
  {
  }

  /** A string that is not an enum value is labelled "N/A", and only such strings are. */
  lemma LabelNotAvailable(v: string)
    ensures GetGenderLabel(v) == "N/A" <==> forall g: Gender :: g.Value() != v
  {
    if v == "M" { assert Male.Value() == v; }
    else if v == "F" { assert Female.Value() == v; }
  }

  /** Each label other than "N/A" names the enum member whose value was given. */
  lemma LabelIsKey(v: string)
    requires GetGenderLabel(v) != "N/A"
    ensures exists g: Gender :: g.Value() == v && g.Key() == GetGenderLabel(v)
  {
    if v == "M" { assert Male.Value() == v; } else { assert Female.Value() == v; }
  }

  /** The enum values are distinct, so the lookup is determined. */
  lemma ValuesDistinct(g: Gender, h: Gender)
    requires g.Value() == h.Value()
    ensures g == h
  {
  }

  /** Each UserStatus value is its own key, and the two values differ. */
  lemma UserStatusValues(s: UserStatus, t: UserStatus)
    ensures s.Value() == s.Key()
    ensures s.Value() == t.Value() ==> s == t
  {
  }
}
