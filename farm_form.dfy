/** The farm input form: the record of location, soil type and season (with the
    coordinates of a detected location), the field-edit handlers, the location
    detection with its asynchronous outcomes, and the submit gate.

    The browser's geolocation service, the reverse-geocoding request and the
    host's number-to-text conversions are not modelled; what they produce
    arrives as parameters of the handlers (`GeocodeOutcome`, `NumberFormat`). */
module FarmForm {

  import opened Wrappers
  import Translations

  /** The record the form edits and hands to `onSubmit`. The coordinates are
      optional: they are present only after a location was detected. */
  datatype FormData = FormData(
    location: string,
    latitude: Option<real>,
    longitude: Option<real>,
    soilType: string,
    season: string)

  /** The record the form starts with: everything empty, no coordinates. */
  const InitialFormData: FormData := FormData("", None, None, "", "")

  /** The soil values the soil-type dropdown offers. */
  const SoilTypeValues: seq<string> := ["clay", "sandy", "loam", "black", "red", "alluvial"]

  /** The season values the season dropdown offers. */
  const SeasonValues: seq<string> := ["kharif", "rabi", "zaid"]

  /** One entry of the reverse-geocoding answer. */
  datatype Place = Place(name: string, country: string)

  /** How the reverse-geocoding request ends. */
  datatype GeocodeOutcome =
    | GeocodeOk(places: seq<Place>)  // an OK response whose body is the array `places`
    | GeocodeNotOk                   // a response whose status is not OK
    | GeocodeFailed                  // the request or the parsing of its body threw

  /** The host's conversions of a coordinate to text: template-string
      interpolation and `toFixed(4)`. */
  datatype NumberFormat = NumberFormat(interpolate: real -> string, toFixed4: real -> string)

  /** "latitude, longitude" with each number rendered by `show`. */
  function CoordinateText(latitude: real, longitude: real, show: real -> string): string
  {
    show(latitude) + ", " + show(longitude)
  }

  /** The location text the success callback of the position request puts into
      the form: "name, country" of the first place the geocoder names; the
      coordinates as interpolated when the OK answer is empty; the coordinates
      to four decimals when the request failed or was not OK. */
  function DetectedLocationName(latitude: real, longitude: real, geocode: GeocodeOutcome, fmt: NumberFormat): string
  {
    match geocode
    case GeocodeOk(places) =>
      if |places| > 0 then places[0].name + ", " + places[0].country
      else CoordinateText(latitude, longitude, fmt.interpolate)
    case GeocodeNotOk => CoordinateText(latitude, longitude, fmt.toFixed4)
    case GeocodeFailed => CoordinateText(latitude, longitude, fmt.toFixed4)
  }

  /** A non-OK answer takes the same fall-back path as a request that threw,
      and an OK answer naming a place shows that place. */
  lemma GeocodeFallbacks(latitude: real, longitude: real, fmt: NumberFormat)
    ensures DetectedLocationName(latitude, longitude, GeocodeNotOk, fmt)
         == DetectedLocationName(latitude, longitude, GeocodeFailed, fmt)
         == CoordinateText(latitude, longitude, fmt.toFixed4)
    ensures DetectedLocationName(latitude, longitude, GeocodeOk([]), fmt)
         == CoordinateText(latitude, longitude, fmt.interpolate)
    ensures DetectedLocationName(12.9716, 77.5946, GeocodeOk([Place("Bengaluru", "IN")]), fmt) == "Bengaluru, IN"
  {
  }

  /** The whole state of the component: the record and the detecting flag. */
  datatype FormState = FormState(data: FormData, isDetectingLocation: bool)

  const InitialState: FormState := FormState(InitialFormData, false)

  /** What can happen to the form: an edit of one field, a click on the
      detect button, and the two callbacks of the position request. */
  datatype Event =
    | LocationTyped(text: string)
    | SoilTypeSelected(value: string)
    | SeasonSelected(value: string)
    | DetectClicked(geolocationSupported: bool)
    | PositionReceived(latitude: real, longitude: real, geocode: GeocodeOutcome)
    | PositionFailed

  /** The effect of one event on the state. */
  function Step(s: FormState, e: Event, fmt: NumberFormat): FormState
  {
    match e
    case LocationTyped(text) => s.(data := s.data.(location := text))
    case SoilTypeSelected(value) => s.(data := s.data.(soilType := value))
    case SeasonSelected(value) => s.(data := s.data.(season := value))
    case DetectClicked(supported) => if supported then s.(isDetectingLocation := true) else s
    case PositionReceived(latitude, longitude, geocode) =>
      FormState(
        s.data.(location := DetectedLocationName(latitude, longitude, geocode, fmt),
                latitude := Some(latitude), longitude := Some(longitude)),
        false)
    case PositionFailed => s.(isDetectingLocation := false)
  }

  /** The state after the events `es`, in order, starting from `s`. */
  function Run(s: FormState, es: seq<Event>, fmt: NumberFormat): FormState
    decreases |es|
  {
    if es == [] then s else Step(Run(s, es[..|es| - 1], fmt), es[|es| - 1], fmt)
  }

  /** An event that ends a pending detection. */
  predicate Completes(e: Event)
  {
    e.PositionReceived? || e.PositionFailed?
  }

  /** No event of `es` after index `i` ends a detection (`i` may be -1). */
  predicate NoCompletionAfter(es: seq<Event>, i: int)
  {
    forall j :: i < j < |es| && 0 <= j ==> !Completes(es[j])
  }

  /** The two dropdown fields of the form. */
  datatype Dropdown = SoilTypeDropdown | SeasonDropdown

  /** Event `e` is a selection in dropdown `f`. */
  predicate Selects(e: Event, f: Dropdown)
  {
    match f
    case SoilTypeDropdown => e.SoilTypeSelected?
    case SeasonDropdown => e.SeasonSelected?
  }

  /** The field of `data` that dropdown `f` edits. */
  function Selected(data: FormData, f: Dropdown): string
  {
    match f
    case SoilTypeDropdown => data.soilType
    case SeasonDropdown => data.season
  }

  /** Index `i` holds the last selection in dropdown `f` among `es`. */
  predicate IsLastSelection(es: seq<Event>, i: int, f: Dropdown)
  {
    0 <= i < |es| && Selects(es[i], f) &&
    forall j :: i < j < |es| ==> !Selects(es[j], f)
  }

  /** One step sets a dropdown's field when it is a selection in that
      dropdown, and otherwise keeps it. */
  lemma StepSelection(s: FormState, e: Event, fmt: NumberFormat, f: Dropdown)
    ensures Selects(e, f) ==> Selected(Step(s, e, fmt).data, f) == e.value
    ensures !Selects(e, f) ==> Selected(Step(s, e, fmt).data, f) == Selected(s.data, f)
  {
  }

  /** Only its own dropdown changes a dropdown's field: after any run it is
      the value of the last selection in that dropdown, or the starting value
      when there was none. */
  lemma {:induction false} RunSelectionIsLast(s: FormState, es: seq<Event>, fmt: NumberFormat, f: Dropdown)
    ensures (forall i :: 0 <= i < |es| ==> !Selects(es[i], f)) ==>
              Selected(Run(s, es, fmt).data, f) == Selected(s.data, f)
    ensures forall i :: IsLastSelection(es, i, f) ==>
              Selected(Run(s, es, fmt).data, f) == es[i].value
    decreases |es|
  {
    if es != [] {
      var n := |es| - 1;
      var init := es[..n];
      var before := Run(s, init, fmt);
      assert Run(s, es, fmt) == Step(before, es[n], fmt);
      RunSelectionIsLast(s, init, fmt, f);
      StepSelection(before, es[n], fmt, f);
      if forall i :: 0 <= i < |es| ==> !Selects(es[i], f) {
        forall i | 0 <= i < n ensures !Selects(init[i], f) {
          assert init[i] == es[i];
        }
      }
      forall i | IsLastSelection(es, i, f)
        ensures Selected(Run(s, es, fmt).data, f) == es[i].value
      {
        if i < n {
          forall j | i < j < n ensures !Selects(init[j], f) {
            assert init[j] == es[j];
          }
          assert init[i] == es[i];
          assert IsLastSelection(init, i, f);
        }
      }
    }
  }

  /** Only its own dropdown changes the soil type: after any run it is the value
      of the last soil selection, or the starting value when there was none. A
      selection made while a detection is pending therefore survives the
      detection's completion. */
  lemma RunSoilTypeIsLastSelection(s: FormState, es: seq<Event>, fmt: NumberFormat)
    ensures (forall i :: 0 <= i < |es| ==> !es[i].SoilTypeSelected?) ==>
              Run(s, es, fmt).data.soilType == s.data.soilType
    ensures forall i :: 0 <= i < |es| && es[i].SoilTypeSelected? &&
                        (forall j :: i < j < |es| ==> !es[j].SoilTypeSelected?) ==>
              Run(s, es, fmt).data.soilType == es[i].value
  {
    RunSelectionIsLast(s, es, fmt, SoilTypeDropdown);
    forall i | 0 <= i < |es| && es[i].SoilTypeSelected? &&
               (forall j :: i < j < |es| ==> !es[j].SoilTypeSelected?)
      ensures Run(s, es, fmt).data.soilType == es[i].value
    {
      assert IsLastSelection(es, i, SoilTypeDropdown);
    }
  }

  /** Only its own dropdown changes the season: after any run it is the value of
      the last season selection, or the starting value when there was none. */
  lemma RunSeasonIsLastSelection(s: FormState, es: seq<Event>, fmt: NumberFormat)
    ensures (forall i :: 0 <= i < |es| ==> !es[i].SeasonSelected?) ==>
              Run(s, es, fmt).data.season == s.data.season
    ensures forall i :: 0 <= i < |es| && es[i].SeasonSelected? &&
                        (forall j :: i < j < |es| ==> !es[j].SeasonSelected?) ==>
              Run(s, es, fmt).data.season == es[i].value
  {
    RunSelectionIsLast(s, es, fmt, SeasonDropdown);
    forall i | 0 <= i < |es| && es[i].SeasonSelected? &&
               (forall j :: i < j < |es| ==> !es[j].SeasonSelected?)
      ensures Run(s, es, fmt).data.season == es[i].value
    {
      assert IsLastSelection(es, i, SeasonDropdown);
    }
  }

  /** Index `i` holds the last position fix of `es`. */
  predicate IsLastFix(es: seq<Event>, i: int)
  {
    0 <= i < |es| && es[i].PositionReceived? &&
    forall j :: i < j < |es| ==> !es[j].PositionReceived?
  }

  /** The coordinates are those of the last position fix, or the starting ones
      when there was none: no handler clears them, and a manual edit of the
      location keeps them. */
  lemma {:induction false} RunCoordinatesAreLastFix(s: FormState, es: seq<Event>, fmt: NumberFormat)
    ensures (forall i :: 0 <= i < |es| ==> !es[i].PositionReceived?) ==>
              Run(s, es, fmt).data.latitude == s.data.latitude &&
              Run(s, es, fmt).data.longitude == s.data.longitude
    ensures forall i :: IsLastFix(es, i) ==>
              Run(s, es, fmt).data.latitude == Some(es[i].latitude) &&
              Run(s, es, fmt).data.longitude == Some(es[i].longitude)
    decreases |es|
  {
    if es != [] {
      var n := |es| - 1;
      var init := es[..n];
      var before := Run(s, init, fmt);
      assert Run(s, es, fmt) == Step(before, es[n], fmt);
      RunCoordinatesAreLastFix(s, init, fmt);
      StepCoordinates(before, es[n], fmt);
      if forall i :: 0 <= i < |es| ==> !es[i].PositionReceived? {
        forall i | 0 <= i < n ensures !init[i].PositionReceived? {
          assert init[i] == es[i];
        }
      }
      forall i | IsLastFix(es, i)
        ensures Run(s, es, fmt).data.latitude == Some(es[i].latitude) &&
                Run(s, es, fmt).data.longitude == Some(es[i].longitude)
      {
        if i < n {
          forall j | i < j < n ensures !init[j].PositionReceived? {
            assert init[j] == es[j];
          }
          assert init[i] == es[i];
          assert IsLastFix(init, i);
        }
      }
    }
  }

  /** One step keeps the coordinates unless it is a position fix, which sets
      both. */
  lemma StepCoordinates(s: FormState, e: Event, fmt: NumberFormat)
    ensures !e.PositionReceived? ==>
              Step(s, e, fmt).data.latitude == s.data.latitude &&
              Step(s, e, fmt).data.longitude == s.data.longitude
    ensures e.PositionReceived? ==>
              Step(s, e, fmt).data.latitude == Some(e.latitude) &&
              Step(s, e, fmt).data.longitude == Some(e.longitude)
  {
  }

  /** From the initial state, latitude and longitude are always set together. */
  lemma CoordinatesSetTogether(es: seq<Event>, fmt: NumberFormat)
    ensures Run(InitialState, es, fmt).data.latitude.Some? <==> Run(InitialState, es, fmt).data.longitude.Some?
  {
    RunCoordinatesAreLastFix(InitialState, es, fmt);
    if i :| 0 <= i < |es| && es[i].PositionReceived? {
      var k := LastFix(es, i);
    }
  }

  /** The index of the last position fix of `es`, given that index `i` is one. */
  function LastFix(es: seq<Event>, i: nat): (k: nat)
    requires i < |es| && es[i].PositionReceived?
    ensures i <= k && IsLastFix(es, k)
    decreases |es| - i
  {
    if exists j :: i < j < |es| && es[j].PositionReceived? then
      var j :| i < j < |es| && es[j].PositionReceived?;
      LastFix(es, j)
    else i
  }

  /** The detecting flag after a run is set exactly when a supported detection
      was started and no callback of a position request came after it (or the
      flag was already set and no callback came at all): every callback clears
      it, and an unsupported click leaves it alone. */
  lemma {:induction false} RunDetectingFlag(s: FormState, es: seq<Event>, fmt: NumberFormat)
    ensures Run(s, es, fmt).isDetectingLocation <==>
              (exists i :: 0 <= i < |es| && es[i] == DetectClicked(true) && NoCompletionAfter(es, i)) ||
              (s.isDetectingLocation && NoCompletionAfter(es, -1))
    decreases |es|
  {
    if es != [] {
      var n := |es| - 1;
      var init := es[..n];
      RunDetectingFlag(s, init, fmt);
      assert forall j :: 0 <= j < n ==> init[j] == es[j];
      if es[n] == DetectClicked(true) {
        assert NoCompletionAfter(es, n);
      } else if Completes(es[n]) {
        forall i | -1 <= i < n ensures !NoCompletionAfter(es, i) {
          assert i < n && Completes(es[n]);
        }
      } else {
        assert forall i :: -1 <= i < n ==> (NoCompletionAfter(es, i) <==> NoCompletionAfter(init, i));
        assert !NoCompletionAfter(es, n) || es[n] != DetectClicked(true);
      }
    }
  }

  /** The state of a mounted form component. The host's number formatting is
      fixed for the component's lifetime. */
  class FarmFormComponent {
    var formData: FormData
    var isDetectingLocation: bool
    const fmt: NumberFormat

    /** The component's state as a value. */
    function State(): FormState
      reads this
    {
      FormState(formData, isDetectingLocation)
    }

    /** A new form: empty location, soil type and season, no coordinates, not
        detecting. */
    constructor (fmt: NumberFormat)
      ensures formData.location == "" && formData.soilType == "" && formData.season == ""
      ensures formData.latitude == None && formData.longitude == None
      ensures !isDetectingLocation
      ensures State() == InitialState && this.fmt == fmt
    {
      formData := InitialFormData;
      isDetectingLocation := false;
      this.fmt := fmt;
    }

    /** Typing in the location box replaces the location and nothing else;
        detected coordinates stay. */
    method OnLocationChange(text: string)
      modifies this
      ensures formData == old(formData).(location := text)
      ensures isDetectingLocation == old(isDetectingLocation)
      ensures State() == Step(old(State()), LocationTyped(text), fmt)
    {
      formData := formData.(location := text);
    }

    /** Choosing a soil type replaces the soil type and nothing else. */
    method OnSoilTypeChange(value: string)
      modifies this
      ensures formData == old(formData).(soilType := value)
      ensures isDetectingLocation == old(isDetectingLocation)
      ensures State() == Step(old(State()), SoilTypeSelected(value), fmt)
    {
      formData := formData.(soilType := value);
    }

    /** Choosing a season replaces the season and nothing else. */
    method OnSeasonChange(value: string)
      modifies this
      ensures formData == old(formData).(season := value)
      ensures isDetectingLocation == old(isDetectingLocation)
      ensures State() == Step(old(State()), SeasonSelected(value), fmt)
    {
      formData := formData.(season := value);
    }

    /** The detect button. Without geolocation support nothing changes and no
        position is requested; otherwise the flag is set and a position is
        requested, whose answer arrives later through `OnPosition` or
        `OnPositionError`. The record itself is untouched here. */
    method DetectLocation(geolocationSupported: bool) returns (positionRequested: bool)
      modifies this
      ensures positionRequested == geolocationSupported
      ensures formData == old(formData)
      ensures isDetectingLocation == (geolocationSupported || old(isDetectingLocation))
      ensures State() == Step(old(State()), DetectClicked(geolocationSupported), fmt)
    {
      if !geolocationSupported {
        positionRequested := false;
        return;
      }
      isDetectingLocation := true;
      positionRequested := true;
    }

    /** The success callback of the position request: reverse-geocodes the
        fix, stores the resulting location text with both coordinates (soil
        type and season as they are now), and clears the flag. */
    method OnPosition(latitude: real, longitude: real, geocode: GeocodeOutcome)
      modifies this
      ensures formData.location == DetectedLocationName(latitude, longitude, geocode, fmt)
      ensures formData.latitude == Some(latitude) && formData.longitude == Some(longitude)
      ensures formData.soilType == old(formData.soilType) && formData.season == old(formData.season)
      ensures !isDetectingLocation
      ensures State() == Step(old(State()), PositionReceived(latitude, longitude, geocode), fmt)
    {
      var locationName: string;
      if geocode.GeocodeOk? {
        var places := geocode.places;
        locationName := if |places| > 0 then places[0].name + ", " + places[0].country
                        else CoordinateText(latitude, longitude, fmt.interpolate);
      } else {
        locationName := CoordinateText(latitude, longitude, fmt.toFixed4);
      }
      formData := formData.(location := locationName, latitude := Some(latitude), longitude := Some(longitude));
      isDetectingLocation := false;
    }

    /** The error callback of the position request (permission denied, no
        fix): clears the flag and leaves the record alone. */
    method OnPositionError()
      modifies this
      ensures formData == old(formData)
      ensures !isDetectingLocation
      ensures State() == Step(old(State()), PositionFailed, fmt)
    {
      isDetectingLocation := false;
    }

    /** The submit handler: hands the record to `onSubmit` (the returned value)
        when location, soil type and season are all non-empty, and otherwise
        does not call it. The form state is not changed either way. */
    method HandleSubmit() returns (submitted: Option<FormData>)
      ensures submitted.Some? <==> formData.location != "" && formData.soilType != "" && formData.season != ""
      ensures submitted.Some? ==> submitted.value == formData
    {
      if formData.location == "" || formData.soilType == "" || formData.season == "" {
        return None;
      }
      submitted := Some(formData);
    }
  }

  /** Filling the form by hand and submitting hands `onSubmit` exactly the
      values entered; a fresh form cannot be submitted. */
  method SubmitScenario(fmt: NumberFormat) returns (first: Option<FormData>, second: Option<FormData>)
    ensures first == None
    ensures second == Some(FormData("Pune", None, None, "loam", "rabi"))
  {
    var form := new FarmFormComponent(fmt);
    first := form.HandleSubmit();
    form.OnLocationChange("Pune");
    form.OnSoilTypeChange("loam");
    form.OnSeasonChange("rabi");
    second := form.HandleSubmit();
  }

  /** A detection that finds "Bengaluru, IN" at (12.9716, 77.5946) fills the
      location with that name; one whose geocoding fails fills it with the
      coordinates to four decimals. A soil type chosen while the detection is
      pending is kept. */
  method DetectionScenario(fmt: NumberFormat) returns (named: FormData, fallback: FormData)
    requires fmt.toFixed4(12.9716) == "12.9716" && fmt.toFixed4(77.5946) == "77.5946"
    ensures named == FormData("Bengaluru, IN", Some(12.9716), Some(77.5946), "clay", "")
    ensures fallback.location == "12.9716, 77.5946"
  {
    var form := new FarmFormComponent(fmt);
    var requested := form.DetectLocation(true);
    form.OnSoilTypeChange("clay");
    form.OnPosition(12.9716, 77.5946, GeocodeOk([Place("Bengaluru", "IN")]));
    named := form.formData;
    requested := form.DetectLocation(true);
    form.OnPosition(12.9716, 77.5946, GeocodeFailed);
    fallback := form.formData;
  }

  /** Of the soil values the form offers, "alluvial" is the only one without a
      translation: `t` shows it raw in every language. Every season value has
      a translation. */
  lemma FormValuesTranslation(l: Translations.Language)
    ensures forall v :: v in SoilTypeValues && v != "alluvial" ==> Translations.Entry(l, v).Some?
    ensures "alluvial" in SoilTypeValues && Translations.Lookup(l, "alluvial") == "alluvial"
    ensures forall v :: v in SeasonValues ==> Translations.Entry(l, v).Some?
  {
    var keys := Translations.TranslationKeys;
    assert keys[10] == "clay" && keys[11] == "sandy" && keys[12] == "loam";
    assert keys[13] == "black" && keys[14] == "red";
    assert keys[15] == "kharif" && keys[16] == "rabi" && keys[17] == "zaid";
    Translations.AlluvialIsUntranslated(l);
  }
}
