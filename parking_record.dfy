/** `ParkingRecord` of fgo/director/parking_record.py: one parking position
    of an airport's groundnet, cached with `to_dict` and restored with
    `from_dict`. An instance is its attribute dict. */
module ParkingRecord {
  import opened Wrappers
  import opened Dicts
  import opened PyValues
  import Dataclasses

  /** The seven declared fields, in declaration order. */
  const Fields: seq<string> := [
    "airport_code", "index", "parking_type", "name", "number",
    "airline_codes", "has_airline_codes"]

  /** Their defaults: index 0, `has_airline_codes` False, the others None. */
  const DefaultValues: seq<Value> := [VNone, VInt(0), VNone, VNone, VNone, VNone, VBool(false)]

  /** `ParkingRecord()` */
  function Defaults(): (d: Dict<Value>)
    ensures Keys(d) == Fields
  {
    Dataclasses.Instance(Fields, DefaultValues)
  }

  /** `ParkingRecord(airport_code, index, parking_type, name, number,
      airline_codes, has_airline_codes)` */
  function Make(airportCode: string, index: int, parkingType: string, name: string, number: string,
                airlineCodes: string, hasAirlineCodes: bool): (r: Dict<Value>)
    ensures Keys(r) == Fields
  {
    Dataclasses.Instance(Fields, [VStr(airportCode), VInt(index), VStr(parkingType), VStr(name),
                                  VStr(number), VStr(airlineCodes), VBool(hasAirlineCodes)])
  }

  /** A record built field by field holds each value under its field. */
  lemma MakeFields(airportCode: string, index: int, parkingType: string, name: string, number: string,
                   airlineCodes: string, hasAirlineCodes: bool)
    ensures var r := Make(airportCode, index, parkingType, name, number, airlineCodes, hasAirlineCodes);
      Get(r, "airport_code") == Some(VStr(airportCode)) && Get(r, "index") == Some(VInt(index)) &&
      Get(r, "parking_type") == Some(VStr(parkingType)) && Get(r, "name") == Some(VStr(name)) &&
      Get(r, "number") == Some(VStr(number)) && Get(r, "airline_codes") == Some(VStr(airlineCodes)) &&
      Get(r, "has_airline_codes") == Some(VBool(hasAirlineCodes))
  {
    var r := Make(airportCode, index, parkingType, name, number, airlineCodes, hasAirlineCodes);
    FieldsWellFormed();
    Dataclasses.DistinctNames(r);
    GetAt(r, 0);
    GetAt(r, 1);
    GetAt(r, 2);
    GetAt(r, 3);
    GetAt(r, 4);
    GetAt(r, 5);
    GetAt(r, 6);
  }

  /** The fields have distinct names, none of them a dunder name. */
  lemma FieldsWellFormed()
    ensures |Fields| == 7 && Distinct(Fields)
    ensures forall k :: k in Fields ==> !Dataclasses.Dunder(k)
  {
  }

  /** `to_dict` */
  function ToDict(r: Dict<Value>): Dict<Value> {
    Dataclasses.ToDictSpec(r)
  }

  /** `from_dict` */
  function FromDict(dictionary: Dict<Value>): Dict<Value> {
    Dataclasses.SetAll(Defaults(), dictionary)
  }

  /** For a record holding exactly the declared fields, `to_dict` has one
      entry per field, valued as in the record, and nothing else. */
  lemma ToDictHasEveryField(r: Dict<Value>, k: string)
    requires Keys(r) == Fields
    ensures |ToDict(r)| == 7
    ensures k in Keys(ToDict(r)) <==> k in Fields
    ensures Get(ToDict(r), k) == Get(r, k)
  {
    FieldsWellFormed();
    Dataclasses.DistinctNames(r);
    Dataclasses.ToDictOfPlainFields(r, k);
  }

  /** `from_dict(r.to_dict())` equals `r`. */
  lemma RoundTrip(r: Dict<Value>)
    requires Keys(r) == Fields
    ensures FromDict(ToDict(r)) == r
  {
    FieldsWellFormed();
    Dataclasses.DistinctNames(r);
    Dataclasses.RoundTrip(Defaults(), r);
  }

  /** `from_dict` assigns every key it is given (the last item for a key
      wins) and a field it is not given keeps its default. */
  lemma FromDictAssigns(dictionary: Dict<Value>, k: string)
    ensures k in Keys(dictionary) ==> Get(FromDict(dictionary), k) == Some(Dataclasses.Last(dictionary, k))
    ensures k !in Keys(dictionary) ==> Get(FromDict(dictionary), k) == Get(Defaults(), k)
  {
    Dataclasses.SetAllGet(Defaults(), dictionary, k);
  }
}
