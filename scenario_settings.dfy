/** `ScenarioSettings` of fgo/director/scenario_settings.py: the scenario
    the director sends to every agent, saved with `to_dict` and loaded with
    `from_dict`. An instance is its attribute dict. */
module ScenarioSettings {
  import opened Wrappers
  import opened Dicts
  import opened PyValues
  import Dataclasses

  /** The 18 declared fields, in declaration order. */
  const Fields: seq<string> := [
    "aircraft", "aircraft_directory", "aircraft_variant", "time_of_day",
    "primary", "secondaries", "airport", "carrier", "runway", "parking",
    "terra_sync_endpoint", "ceiling", "enable_auto_coordination",
    "visibility_in_meters", "ai_scenarios", "skip_aircraft_install",
    "selected_airport_option", "selected_runway_option"]

  /** Their defaults: None, empty lists for the two list fields, and 0 for
      the two option selectors. */
  const DefaultValues: seq<Value> := [
    VNone, VNone, VNone, VNone,
    VNone, VList([]), VNone, VNone, VNone, VNone,
    VNone, VNone, VNone,
    VNone, VList([]), VNone,
    VInt(0), VInt(0)]

  /** `ScenarioSettings()` */
  function Defaults(): (d: Dict<Value>)
    ensures Keys(d) == Fields
  {
    Dataclasses.Instance(Fields, DefaultValues)
  }

  /** The fields have distinct names, none of them a dunder name. */
  lemma FieldsWellFormed()
    ensures |Fields| == 18 && Distinct(Fields)
    ensures forall k :: k in Fields ==> !Dataclasses.Dunder(k)
  {
    // No two fields agree on length, first and last letter.
    forall i, j | 0 <= i < j < |Fields| ensures Fields[i] != Fields[j] {
      var a, b := Fields[i], Fields[j];
      assert |a| != |b| || a[0] != b[0] || a[|a| - 1] != b[|b| - 1];
    }
  }

  /** `to_dict` */
  function ToDict(s: Dict<Value>): Dict<Value> {
    Dataclasses.ToDictSpec(s)
  }

  /** `from_dict` */
  function FromDict(dictionary: Dict<Value>): Dict<Value> {
    Dataclasses.SetAll(Defaults(), dictionary)
  }

  /** For settings holding exactly the declared fields, `to_dict` has one
      entry per field, valued as in the settings, and nothing else. */
  lemma ToDictHasEveryField(s: Dict<Value>, k: string)
    requires Keys(s) == Fields
    ensures |ToDict(s)| == 18
    ensures k in Keys(ToDict(s)) <==> k in Fields
    ensures Get(ToDict(s), k) == Get(s, k)
  {
    FieldsWellFormed();
    Dataclasses.DistinctNames(s);
    Dataclasses.ToDictOfPlainFields(s, k);
  }

  /** `from_dict(s.to_dict())` equals `s`. */
  lemma RoundTrip(s: Dict<Value>)
    requires Keys(s) == Fields
    ensures FromDict(ToDict(s)) == s
  {
    FieldsWellFormed();
    Dataclasses.DistinctNames(s);
    Dataclasses.RoundTrip(Defaults(), s);
  }

  /** `from_dict` assigns every key it is given (the last item for a key
      wins) and a field it is not given keeps its default. */
  lemma FromDictAssigns(dictionary: Dict<Value>, k: string)
    ensures k in Keys(dictionary) ==> Get(FromDict(dictionary), k) == Some(Dataclasses.Last(dictionary, k))
    ensures k !in Keys(dictionary) ==> Get(FromDict(dictionary), k) == Get(Defaults(), k)
  {
    Dataclasses.SetAllGet(Defaults(), dictionary, k);
  }
}
