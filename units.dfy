/**
 * The measurement-unit enumerations of src/common_code/EcowittDevice.cs and what .NET's
 * `Enum.ToString` and `Enum.TryParse` make of them. A unit is kept as the enumeration's integer
 * value, since a failed `Enum.TryParse` leaves 0, which names no member.
 */
module Units {
  import opened Wrappers
  import opened Decimal

  /** The members of one enumeration: name and value, in declaration order. */
  type Members = seq<(string, Int32)>

  const Celsius: Int32 := 1
  const Fahrenheit: Int32 := 2
  const hPa: Int32 := 3
  const InchesHg: Int32 := 4
  const MmHg: Int32 := 5
  const mps: Int32 := 6
  const kmh: Int32 := 7
  const kn: Int32 := 8
  const mph: Int32 := 9
  const BFT: Int32 := 10
  const fpm: Int32 := 11
  const mm: Int32 := 12
  const inches: Int32 := 13
  const lux: Int32 := 14
  const fc: Int32 := 15
  const Wpm: Int32 := 16

  const TemperatureUnits: Members := [("Fahrenheit", Fahrenheit), ("Celsius", Celsius)]
  const PressureUnits: Members := [("InchesHg", InchesHg), ("hPa", hPa), ("MmHg", MmHg)]
  const WindSpeedUnits: Members := [("mph", mph), ("mps", mps), ("kmh", kmh), ("kn", kn), ("BFT", BFT), ("fpm", fpm)]
  const RainfallUnits: Members := [("inches", inches), ("mm", mm)]
  const SolarIrradianceUnits: Members := [("Wpm", Wpm), ("lux", lux), ("fc", fc)]

  /** No member name is a number and no name or value occurs twice. */
  ghost predicate WellFormed(members: Members) {
    && (forall i :: 0 <= i < |members| ==> |members[i].0| > 0 && !IsDigit(members[i].0[0]) && members[i].0[0] != '-')
    && (forall i, j :: 0 <= i < j < |members| ==> members[i].0 != members[j].0 && members[i].1 != members[j].1)
  }

  lemma UnitEnumerationsWellFormed()
    ensures WellFormed(TemperatureUnits) && WellFormed(PressureUnits) && WellFormed(WindSpeedUnits)
    ensures WellFormed(RainfallUnits) && WellFormed(SolarIrradianceUnits)
  {
  }

  /** The name of the first member with value `v`, if any. */
  function NameOf(members: Members, v: int): (r: Option<string>)
    ensures r.Some? ==> exists i :: 0 <= i < |members| && members[i] == (r.value, v)
    ensures r.None? ==> forall i :: 0 <= i < |members| ==> members[i].1 != v
    decreases |members|
  {
    if members == [] then None
    else if members[0].1 == v then Some(members[0].0)
    else
      var r := NameOf(members[1..], v);
      if r.Some? then
        ghost var i :| 0 <= i < |members[1..]| && members[1..][i] == (r.value, v);
        assert members[i + 1] == (r.value, v);
        r
      else r
  }

  /** The value of the first member named `s`, if any. */
  function ValueOf(members: Members, s: string): (r: Option<Int32>)
    ensures r.Some? ==> exists i :: 0 <= i < |members| && members[i] == (s, r.value)
    ensures r.None? ==> forall i :: 0 <= i < |members| ==> members[i].0 != s
    decreases |members|
  {
    if members == [] then None
    else if members[0].0 == s then Some(members[0].1)
    else
      var r := ValueOf(members[1..], s);
      if r.Some? then
        ghost var i :| 0 <= i < |members[1..]| && members[1..][i] == (s, r.value);
        assert members[i + 1] == (s, r.value);
        r
      else r
  }

  /** `Enum.ToString()`: the member's name, or the number when no member has that value. */
  function EnumToString(members: Members, v: int): string {
    match NameOf(members, v)
    case Some(name) => name
    case None => IntToString(v)
  }

  /** `Enum.TryParse(s, out v)`: a member name, or a number in the 32-bit range; otherwise 0 and false. */
  function EnumTryParse(members: Members, s: Option<string>): (r: Option<Int32>)
    ensures s.None? ==> r.None?
  {
    if s.None? then None
    else
      match ValueOf(members, s.value)
      case Some(v) => Some(v)
      case None => ParseInt32(s)
  }

  /** Unique members make `NameOf` and `ValueOf` inverse. */
  lemma ValueOfNameOf(members: Members, v: int)
    requires WellFormed(members) && NameOf(members, v).Some?
    ensures ValueOf(members, NameOf(members, v).value) == Some(v)
  {
    var name := NameOf(members, v).value;
    var i :| 0 <= i < |members| && members[i] == (name, v);
    var w := ValueOf(members, name).value;
    var j :| 0 <= j < |members| && members[j] == (name, w);
  }

  /** An enumeration value written with `ToString` reads back with `TryParse`, member or not. */
  lemma EnumRoundTrip(members: Members, v: int)
    requires WellFormed(members) && Int32Min <= v <= Int32Max
    ensures EnumToString(members, v) != ""
    ensures EnumTryParse(members, Some(EnumToString(members, v))) == Some(v)
  {
    match NameOf(members, v)
    case Some(name) =>
      ValueOfNameOf(members, v);
    case None =>
      var s := IntToString(v);
      ParseInt32OfIntToString(v);
      assert s[0] == '-' || IsDigit(s[0]);
  }
}
