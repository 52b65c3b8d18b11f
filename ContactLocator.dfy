/** The contact locator
    (plugins/EventLocatorPlugin/src/base/locator/ContactLocator.cpp): an
    event locator that finds when a target is in view of a list of
    observers (ground stations, or spacecraft carrying an imager) and
    writes the contacts to a report.

    The model covers the locator's parameters and their checks, the
    observer list, renaming and clearing, the checks and report columns of
    Initialize, the aberration correction it gives SPICE, the bisection
    that refines a crossing of a planetographic region, and the order in
    which the report lists the contacts. Finding the events themselves
    (SPICE geometry finders) is outside the model. */
module ContactLocatorModel {
  import opened Common

  // ---------------------------------------------------------------------
  // Parameters

  /** The locator's own parameters, "Target" (the base class's spacecraft
      field under the name the contact locator uses), and any parameter the
      base class handles, by its id there. */
  datatype ContactParam =
    | Observers | LightTimeDirection | LeftJustified | ReportPrecision
    | ReportFormat | IntervalStepSize | ReportTimeFormat
    | Target
    | Inherited(id: int)

  /** GetParameterText: an own parameter's scripted name, "Target", or the
      base class's name. */
  function ParameterText(p: ContactParam, baseText: int -> string): string
  {
    match p
    case Observers => "Observers"
    case LightTimeDirection => "LightTimeDirection"
    case LeftJustified => "LeftJustified"
    case ReportPrecision => "ReportPrecision"
    case ReportFormat => "ReportFormat"
    case IntervalStepSize => "IntervalStepSize"
    case ReportTimeFormat => "ReportTimeFormat"
    case Target => "Target"
    case Inherited(id) => baseText(id)
  }

  function SpacecraftFieldMessage(): string
  {
    Text(["\"Spacecraft\" not a valid field for a Contact Locator.  Please use \"Target\".\n"])
  }

  /** The search of the locator's own names, in the order of their ids. */
  function OwnParam(str: string): Option<ContactParam>
  {
    if str == "Observers" then Some(Observers)
    else if str == "LightTimeDirection" then Some(LightTimeDirection)
    else if str == "LeftJustified" then Some(LeftJustified)
    else if str == "ReportPrecision" then Some(ReportPrecision)
    else if str == "ReportFormat" then Some(ReportFormat)
    else if str == "IntervalStepSize" then Some(IntervalStepSize)
    else if str == "ReportTimeFormat" then Some(ReportTimeFormat)
    else None
  }

  /** GetParameterID: the own names are searched first, then "Target";
      "Spacecraft" is an exception; anything else is the base class's. */
  function ParameterId(str: string, baseId: string -> int): Result<ContactParam>
  {
    match OwnParam(str)
    case Some(p) => Ok(p)
    case None =>
      if str == "Target" then Ok(Target)
      else if str == "Spacecraft" then Err(SpacecraftFieldMessage())
      else Ok(Inherited(baseId(str)))
  }

  /** The scripted name of every parameter of the locator's own gives that
      parameter back, and only those names are the locator's own. */
  lemma OwnNamesRoundTrip(p: ContactParam, str: string, baseText: int -> string, baseId: string -> int)
    requires !p.Inherited? && p != Target
    ensures ParameterId(ParameterText(p, baseText), baseId) == Ok(p)
    ensures OwnParam(str).Some? ==> ParameterText(OwnParam(str).value, baseText) == str
  {
  }

  /** "Target" names the base class's spacecraft field; "Spacecraft" is
      refused with the advice to use "Target"; a name the locator does not
      know is the base class's. */
  lemma TargetAndOtherIds(str: string, baseText: int -> string, baseId: string -> int)
    ensures ParameterId(ParameterText(Target, baseText), baseId) == Ok(Target)
    ensures ParameterId("Spacecraft", baseId) == Err(SpacecraftFieldMessage())
    ensures OwnParam(str).None? && str != "Target" && str != "Spacecraft" ==> ParameterId(str, baseId) == Ok(Inherited(baseId(str)))
  {
  }

  function PrecisionMessage(value: int, name: string): string
  {
    Text(["*** Error *** The value", IntToString(value), "for field ReportPrecision on object \"", name,
          "\" is not an allowed value. Allowed values are [0 < Integer]"])
  }

  function IntervalMessage(valueText: string, name: string): string
  {
    Text(["*** Error *** The value", valueText, "for field intervalStep on object \"", name,
          "\" is not an allowed value. Allowed values are greater than 0."])
  }

  function LightTimeMessage(value: string, name: string): string
  {
    Text(["The value of \"", value, "\" for field \"LightTimeDirection\" on object \"", name,
          "\" is not an allowed value.\nThe allowed values are: [ Transmit, Receive ]. "])
  }

  function TimeFormatMessage(): string { Text(["ReportTimeFormat must be set to UTC, UTCMJD, or ISOYD"]) }

  function TemplateMessage(): string
  {
    Text(["ReportFormat options must be set to one of the following: AzimuthElevationRangeReport, ContactRangeReport,",
          "SiteViewMaxElevationReport, SiteViewMaxElevationRangeReport, or Legacy"])
  }

  function ObserverIndexMessage(name: string): string
  {
    Text(["Index out of range when trying to access observer list for ", name])
  }

  /** The report time formats the setter accepts. */
  predicate IsTimeFormat(value: string)
  {
    value == "UTCGregorian" || value == "UTCMJD" || value == "ISOYD"
  }

  /** The report templates the setter accepts. */
  predicate IsTemplate(value: string)
  {
    || value == "AzimuthElevationRangeReport" || value == "ContactRangeReport"
    || value == "SiteViewMaxElevationRangeReport" || value == "SiteViewMaxElevationReport" || value == "Legacy"
  }

  // ---------------------------------------------------------------------
  // The locator's state and what its setters do to it

  /** What kind of object an observer is; Missing stands for an observer
      name that was never resolved to an object. */
  datatype ObserverKind = GroundStation | SpacecraftObserver | OtherKind | Missing

  /** An observer object as Initialize sees it: its name and kind, whether
      it carries hardware with a field of view, and its central body's name
      and type. */
  datatype Observer = Observer(name: string, kind: ObserverKind, hasFov: bool, cbName: string, cbType: string)

  /** The fields of the locator: the observer names and objects, the light
      time direction, justification, precision, interval step and whether
      intervals are reported, the time format and template of the report,
      its columns, and the number of contact results held. */
  datatype Fields = Fields(
    names: seq<string>,
    observers: seq<Observer>,
    lightTime: string,
    leftJustified: bool,
    precision: int,
    intervalStep: real,
    reportIntervals: bool,
    timeFormat: string,
    template: string,
    columns: seq<string>,
    results: nat)

  /** SetIntegerParameter for ReportPrecision: a negative value is an
      exception; otherwise it is kept and returned. */
  function SetPrecision(f: Fields, value: int, name: string): (Fields, Result<int>)
  {
    if value < 0 then (f, Err(PrecisionMessage(value, name)))
    else (f.(precision := value), Ok(value))
  }

  /** SetRealParameter for IntervalStepSize: a negative step is an
      exception; otherwise it is kept, and any non-zero step turns interval
      reporting on. */
  function SetIntervalStep(f: Fields, value: real, valueText: string, name: string): (Fields, Result<real>)
  {
    if value < 0.0 then (f, Err(IntervalMessage(valueText, name)))
    else (f.(intervalStep := value, reportIntervals := if value != 0.0 then true else f.reportIntervals), Ok(value))
  }

  /** The precision and the interval step: exactly the negative values are
      refused, with nothing changed; an accepted value is stored and read
      back; interval reporting is switched on by a non-zero step and never
      switched off by a setter. */
  lemma NumericSettersRefuseNegatives(f: Fields, p: int, s: real, text: string, name: string)
    ensures SetPrecision(f, p, name).1.Err? <==> p < 0
    ensures SetPrecision(f, p, name).1.Err? ==> SetPrecision(f, p, name) == (f, Err(PrecisionMessage(p, name)))
    ensures SetPrecision(f, p, name).1.Ok? ==> SetPrecision(f, p, name).0.precision == p
    ensures SetIntervalStep(f, s, text, name).1.Err? <==> s < 0.0
    ensures SetIntervalStep(f, s, text, name).1.Err? ==> SetIntervalStep(f, s, text, name).0 == f
    ensures var g := SetIntervalStep(f, s, text, name).0;
      SetIntervalStep(f, s, text, name).1.Ok? ==>
        g.intervalStep == s && (g.reportIntervals <==> f.reportIntervals || s != 0.0)
        && g == f.(intervalStep := g.intervalStep, reportIntervals := g.reportIntervals)
  {
  }

  /** SetStringParameter: the light time direction must be Transmit or
      Receive; an observer name joins the list once (and is always
      accepted); the report time format and template must be among the
      accepted ones; anything else goes to the base class. */
  function SetString(f: Fields, p: ContactParam, value: string, name: string, baseSet: bool): (Fields, Result<bool>)
  {
    match p
    case LightTimeDirection =>
      if value == "Transmit" || value == "Receive" then (f.(lightTime := value), Ok(true))
      else (f, Err(LightTimeMessage(value, name)))
    case Observers => (f.(names := AddIfAbsent(f.names, value)), Ok(true))
    case ReportTimeFormat =>
      if IsTimeFormat(value) then (f.(timeFormat := value), Ok(true)) else (f, Err(TimeFormatMessage()))
    case ReportFormat =>
      if IsTemplate(value) then (f.(template := value), Ok(true)) else (f, Err(TemplateMessage()))
    case _ => (f, Ok(baseSet))
  }

  /** An observer name joins the list exactly when it is new, the list
      stays free of repeats, and the setter always accepts. */
  lemma {:induction false} ObserverNameAddedOnce(f: Fields, value: string, name: string, baseSet: bool)
    requires NoDuplicates(f.names)
    ensures SetString(f, Observers, value, name, baseSet) == (f.(names := AddIfAbsent(f.names, value)), Ok(true))
    ensures AddIfAbsent(f.names, value) == if value in f.names then f.names else f.names + [value]
    ensures NoDuplicates(AddIfAbsent(f.names, value))
  {
    AddIfAbsentKeepsDistinct(f.names, value);
  }

  /** The light time direction takes only Transmit or Receive; any other
      value is an exception that changes nothing. */
  lemma LightTimeSetterRule(f: Fields, value: string, name: string, baseSet: bool)
    ensures var r := SetString(f, LightTimeDirection, value, name, baseSet);
      && (r.1.Err? <==> value != "Transmit" && value != "Receive")
      && (r.1.Err? ==> r == (f, Err(LightTimeMessage(value, name))))
      && (r.1.Ok? ==> r == (f.(lightTime := value), Ok(true)))
  {
  }

  /** The report time format takes only the accepted formats; any other
      value is an exception that changes nothing. */
  lemma TimeFormatSetterRule(f: Fields, value: string, name: string, baseSet: bool)
    ensures var r := SetString(f, ReportTimeFormat, value, name, baseSet);
      && (r.1.Err? <==> !IsTimeFormat(value))
      && (r.1.Err? ==> r == (f, Err(TimeFormatMessage())))
      && (r.1.Ok? ==> r == (f.(timeFormat := value), Ok(true)))
  {
  }

  /** The report template takes only the accepted templates; any other
      value is an exception that changes nothing. */
  lemma TemplateSetterRule(f: Fields, value: string, name: string, baseSet: bool)
    ensures var r := SetString(f, ReportFormat, value, name, baseSet);
      && (r.1.Err? <==> !IsTemplate(value))
      && (r.1.Err? ==> r == (f, Err(TemplateMessage())))
      && (r.1.Ok? ==> r == (f.(template := value), Ok(true)))
  {
  }

  /** Any other string parameter is the base class's, whose answer is
      returned, and nothing of the locator's changes. */
  lemma OtherStringsGoToBase(f: Fields, p: ContactParam, value: string, name: string, baseSet: bool)
    requires p !in {Observers, LightTimeDirection, ReportTimeFormat, ReportFormat}
    ensures SetString(f, p, value, name, baseSet) == (f, Ok(baseSet))
  {
  }

  /** The indexed observer getter as written: any index below the list's
      length is read, so a negative index passes the test and reads before
      the start of the list (undefined in GMAT; here the first entry stands
      for whatever is read). */
  function GetObserverAsWritten(names: seq<string>, index: int, name: string): Result<string>
  {
    if index < |names| then Ok(if 0 <= index then names[index] else if names != [] then names[0] else "")
    else Err(ObserverIndexMessage(name))
  }

  /** The indexed observer getter: the name at the index, and an exception
      outside the list. */
  function GetObserver(names: seq<string>, index: int, name: string): (r: Result<string>)
  {
    if 0 <= index < |names| then Ok(names[index]) else Err(ObserverIndexMessage(name))
  }

  /** The indexed observer setter as written: a name already in the list is
      ignored; otherwise an index below the length overwrites (a negative
      one writes before the list, which the model cannot hold and records
      as the list unchanged) and any other index appends; it always
      answers true. */
  function SetObserverAsWritten(names: seq<string>, value: string, index: int): (seq<string>, bool)
  {
    if value in names then (names, true)
    else if index < |names| then (if 0 <= index then names[index := value] else names, true)
    else (names + [value], true)
  }

  /** The indexed observer setter: a name already in the list is ignored;
      otherwise an index inside the list overwrites that entry and any
      other index appends; it always answers true. */
  function SetObserver(names: seq<string>, value: string, index: int): (seq<string>, bool)
  {
    if value in names then (names, true)
    else if 0 <= index < |names| then (names[index := value], true)
    else (names + [value], true)
  }

  /** A negative index passes the range test of the indexed getter and
      setter as written: with one observer, index -1 is read rather than
      refused, and a new name given at index -1 is not appended; the
      corrected getter refuses it and the corrected setter appends. */
  lemma NegativeObserverIndexPasses()
    ensures GetObserverAsWritten(["GS1"], -1, "CL").Ok?
    ensures GetObserver(["GS1"], -1, "CL") == Err(ObserverIndexMessage("CL"))
    ensures SetObserverAsWritten(["GS1"], "GS2", -1).0 == ["GS1"]
    ensures SetObserver(["GS1"], "GS2", -1).0 == ["GS1", "GS2"]
  {
  }

  /** The corrected indexed access: a set name reads back at its index (or
      at the end when appended), the rest of the list is kept, no name is
      ever duplicated, and a name already present changes nothing. */
  lemma {:induction false} ObserverIndexRules(names: seq<string>, value: string, index: int, name: string)
    requires NoDuplicates(names)
    ensures var r := SetObserver(names, value, index).0;
      && SetObserver(names, value, index).1
      && NoDuplicates(r) && value in r
      && (value in names ==> r == names)
      && (value !in names && 0 <= index < |names| ==>
            |r| == |names| && GetObserver(r, index, name) == Ok(value)
            && forall j :: 0 <= j < |names| && j != index ==> r[j] == names[j])
      && (value !in names && !(0 <= index < |names|) ==> r == names + [value])
    ensures GetObserver(names, index, name).Ok? <==> 0 <= index < |names|
  {
    var r := SetObserver(names, value, index).0;
    if value !in names {
      if 0 <= index < |names| {
        assert r[index] == value;
        forall i, j | 0 <= i < j < |r|
          ensures r[i] != r[j]
        {
          if i == index {
            assert r[j] == names[j];
          } else if j == index {
            assert r[i] == names[i];
          }
        }
      } else {
        AddIfAbsentKeepsDistinct(names, value);
        assert AddIfAbsent(names, value) == r;
      }
    }
  }

  /** RenameRefObject for a ground station or an object of unknown type:
      every observer of the old name takes the new one. */
  function RenameAll(names: seq<string>, oldName: string, newName: string): (r: seq<string>)
    ensures |r| == |names|
    decreases |names|
  {
    if names == [] then []
    else [if names[0] == oldName then newName else names[0]] + RenameAll(names[1..], oldName, newName)
  }

  /** The kinds of reference object RenameRefObject is told about. */
  datatype RefType = GroundStationType | UnknownType | OtherType

  /** RenameRefObject: the observers are renamed only for a ground station
      or an unknown type; the answer is whether any observer was renamed
      or the base class renamed something. */
  function Rename(names: seq<string>, t: RefType, oldName: string, newName: string, baseRenamed: bool): (seq<string>, bool)
  {
    if t == OtherType then (names, baseRenamed)
    else (RenameAll(names, oldName, newName), oldName in names || baseRenamed)
  }

  /** Every observer of the old name is renamed and every other observer
      is kept in place, so the old name is gone afterwards (unless it is
      also the new name); the answer is true exactly when there was one to
      rename or the base class renamed something. */
  lemma {:induction false} RenameRenamesEvery(names: seq<string>, t: RefType, oldName: string, newName: string, baseRenamed: bool)
    requires t != OtherType
    ensures var r := Rename(names, t, oldName, newName, baseRenamed);
      && |r.0| == |names|
      && (forall i :: 0 <= i < |names| ==> r.0[i] == (if names[i] == oldName then newName else names[i]))
      && (oldName != newName ==> oldName !in r.0)
      && (r.1 <==> oldName in names || baseRenamed)
    decreases |names|
  {
    if names != [] {
      RenameRenamesEvery(names[1..], t, oldName, newName, baseRenamed);
      var r := RenameAll(names, oldName, newName);
      var rest := RenameAll(names[1..], oldName, newName);
      assert r == [if names[0] == oldName then newName else names[0]] + rest;
      forall i | 0 <= i < |names|
        ensures r[i] == (if names[i] == oldName then newName else names[i])
      {
        if i > 0 {
          assert r[i] == rest[i - 1];
          assert names[1..][i - 1] == names[i];
        }
      }
    }
  }

  /** TakeAction("Clear", data) as written: "Observers" or "" clears the
      observers; the events are cleared only for "Events", because the
      test for "" sits in an else branch that "" never reaches. The answer
      is true when either branch ran or the base class cleared something. */
  function ClearAsWritten(f: Fields, data: string, baseCleared: bool): (Fields, bool)
  {
    if data == "Observers" || data == "" then (f.(names := [], observers := []), true)
    else if data == "Events" || data == "" then (f.(results := 0), true)
    else (f, baseCleared)
  }

  /** TakeAction("Clear", data) as evidently meant: "Observers" clears the
      observers, "Events" the contact results, and "" both. */
  function Clear(f: Fields, data: string, baseCleared: bool): (Fields, bool)
  {
    var g := if data == "Observers" || data == "" then f.(names := [], observers := []) else f;
    var h := if data == "Events" || data == "" then g.(results := 0) else g;
    (h, data == "Observers" || data == "Events" || data == "" || baseCleared)
  }

  /** With no data, the clear as written keeps the contact results (which
      the destructor then never frees), while the corrected clear empties
      both lists. */
  lemma ClearAllKeepsEvents(f: Fields)
    requires f.results > 0
    ensures ClearAsWritten(f, "", false).0.results == f.results
    ensures Clear(f, "", false).0.results == 0 && Clear(f, "", false).0.names == []
  {
  }

  /** The corrected clear empties exactly the lists it names, leaves the
      settings alone, and agrees with the clear as written for every data
      but "". */
  lemma ClearEmptiesWhatItNames(f: Fields, data: string, baseCleared: bool)
    ensures var g := Clear(f, data, baseCleared).0;
      && ((data == "Observers" || data == "") ==> g.names == [] && g.observers == [])
      && ((data == "Events" || data == "") ==> g.results == 0)
      && (data != "Events" && data != "" ==> g.results == f.results)
      && (data != "Observers" && data != "" ==> g.names == f.names && g.observers == f.observers)
      && g == f.(names := g.names, observers := g.observers, results := g.results)
    ensures data != "" ==> Clear(f, data, baseCleared) == ClearAsWritten(f, data, baseCleared)
  {
  }

  /** GetAbcorrString: the base class's correction, prefixed with 'X'
      (SPICE's transmission case) when light time is used and the
      direction is Transmit. */
  function AbcorrString(base: string, useLightTime: bool, lightTime: string): (r: string)
  {
    if useLightTime && lightTime == "Transmit" then ['X'] + base else base
  }

  /** The correction is the base class's with the transmission prefix
      exactly for light time in the Transmit direction; otherwise it is the
      base class's unchanged. */
  lemma AbcorrPrefix(base: string, useLightTime: bool, lightTime: string)
    ensures var r := AbcorrString(base, useLightTime, lightTime);
      && (useLightTime && lightTime == "Transmit" <==> |r| == |base| + 1)
      && (|r| == |base| + 1 ==> r[0] == 'X' && r[1..] == base)
      && (|r| == |base| ==> r == base)
  {
  }

  // ---------------------------------------------------------------------
  // Initialize

  /** Whether the observer's central body is one the contact locator has
      been tested with: Luna, or any planet. */
  predicate TestedBody(o: Observer)
  {
    o.cbName == "Luna" || o.cbType == "Planet"
  }

  /** An untested moon is let through (with a warning) in testing mode. */
  predicate MoonWaived(o: Observer, testing: bool)
  {
    testing && o.cbType == "Moon"
  }

  /** Why Initialize refuses an observer. */
  datatype ObserverFault =
    | MissingObserver            // the name never resolved to an object
    | NotStationOrSpacecraft     // neither a ground station nor a spacecraft
    | UntestedFovBody            // a field of view on an untested central body
    | UntestedTemplateBody       // a non-Legacy report for an untested central body
    | NotPlanetOrMoon            // a ground station on an asteroid or comet
    | SpacecraftWithoutFov       // a spacecraft observer of a spacecraft target, without an imager

  /** The checks Initialize makes of one observer, in its order: the
      observer must exist and be a ground station or a spacecraft; with a
      field of view its central body must be a tested one; without one,
      when the target is not a region, a report template other than Legacy
      needs a tested body and otherwise the body must be a planet or a
      moon, and a spacecraft observer is refused. */
  function ObserverCheck(o: Observer, template: string, region: bool, testing: bool): Option<ObserverFault>
  {
    if o.kind == Missing then Some(MissingObserver)
    else if o.kind == OtherKind then Some(NotStationOrSpacecraft)
    else if o.hasFov then
      (if !TestedBody(o) && !MoonWaived(o, testing) then Some(UntestedFovBody) else None)
    else if !region && template != "Legacy" && !TestedBody(o) && !MoonWaived(o, testing) then Some(UntestedTemplateBody)
    else if !region && !(template != "Legacy" && !TestedBody(o)) && o.cbType != "Planet" && o.cbType != "Moon" then
      Some(NotPlanetOrMoon)
    else if o.kind == SpacecraftObserver && !region then Some(SpacecraftWithoutFov)
    else None
  }

  /** What an observer that passes the checks is like: a ground station or
      a spacecraft; a spacecraft carries a field of view unless the target
      is a region; one with a field of view sits on Luna, a planet, or (in
      testing) a moon; without one, for a spacecraft target, it sits on a
      planet or a moon, and a non-Legacy report needs a tested body. A
      Legacy ground station on a planet always passes. */
  lemma PassingObserver(o: Observer, template: string, region: bool, testing: bool)
    ensures ObserverCheck(o, template, region, testing) == None ==>
      && (o.kind == GroundStation || o.kind == SpacecraftObserver)
      && (o.kind == SpacecraftObserver ==> o.hasFov || region)
      && (o.hasFov ==> TestedBody(o) || MoonWaived(o, testing))
      && (!o.hasFov && !region ==> o.cbType == "Planet" || o.cbType == "Moon" || o.cbName == "Luna")
      && (!o.hasFov && !region && template != "Legacy" ==> TestedBody(o) || MoonWaived(o, testing))
    ensures o.kind == GroundStation && o.cbType == "Planet" && template == "Legacy" ==>
      ObserverCheck(o, template, region, testing) == None
  {
  }

  /** The message GMAT throws for a refused observer. */
  function ObserverMessage(e: ObserverFault, o: Observer, name: string): string
  {
    match e
    case MissingObserver => Text(["Error setting observers on ContactLocator ", name, "\n"])
    case NotStationOrSpacecraft =>
      Text(["The observer ", o.name, " for ContactLocator ", name, " must be a ground station or spacecraft for Contact Location"])
    case UntestedFovBody =>
      Text(["Usage of FOV is only permitted for observers with central bodies that are \"Luna\" or a planet."])
    case UntestedTemplateBody =>
      Text(["Usage of Non-Legacy Report formats is only permitted for observers with central bodies on \"Earth\", \"Luna\", and \"Mars.\""])
    case NotPlanetOrMoon =>
      Text(["The central bodies of Ground stations used in contact location must be a Planet or a Moon. ",
            "Asteroids and Comets are not permitted."])
    case SpacecraftWithoutFov =>
      Text(["Error setting observers on ContactLocator ", name,
            ", all spacecraft observers must have an imager with a FieldOfView object attached if the target is a Spacecraft\n"])
  }

  /** The first observer to fail its checks, with its fault. */
  function CheckAll(obs: seq<Observer>, template: string, region: bool, testing: bool): Option<(Observer, ObserverFault)>
    decreases |obs|
  {
    if obs == [] then None
    else match ObserverCheck(obs[0], template, region, testing)
      case Some(e) => Some((obs[0], e))
      case None => CheckAll(obs[1..], template, region, testing)
  }

  /** The observer list passes exactly when every observer does, and a
      failure reports the first observer that fails. */
  lemma {:induction false} CheckAllFirstFailure(obs: seq<Observer>, template: string, region: bool, testing: bool)
    ensures CheckAll(obs, template, region, testing) == None <==>
      forall i :: 0 <= i < |obs| ==> ObserverCheck(obs[i], template, region, testing) == None
    ensures CheckAll(obs, template, region, testing).Some? ==>
      exists k :: 0 <= k < |obs|
        && ObserverCheck(obs[k], template, region, testing).Some?
        && CheckAll(obs, template, region, testing) == Some((obs[k], ObserverCheck(obs[k], template, region, testing).value))
        && forall i :: 0 <= i < k ==> ObserverCheck(obs[i], template, region, testing) == None
    decreases |obs|
  {
    if obs != [] {
      CheckAllFirstFailure(obs[1..], template, region, testing);
      assert forall i :: 1 <= i < |obs| ==> obs[1..][i - 1] == obs[i];
      if ObserverCheck(obs[0], template, region, testing) == None && CheckAll(obs[1..], template, region, testing).Some? {
        var k :| 0 <= k < |obs[1..]|
          && ObserverCheck(obs[1..][k], template, region, testing).Some?
          && CheckAll(obs[1..], template, region, testing) == Some((obs[1..][k], ObserverCheck(obs[1..][k], template, region, testing).value))
          && forall i :: 0 <= i < k ==> ObserverCheck(obs[1..][i], template, region, testing) == None;
        forall i | 0 <= i < k + 1
          ensures ObserverCheck(obs[i], template, region, testing) == None
        {
          if i > 0 { assert obs[i] == obs[1..][i - 1]; }
        }
        assert obs[k + 1] == obs[1..][k];
      }
    }
  }

  /** The observer loop of Initialize: each observer is checked in turn
      and the first failure is thrown. */
  method CheckObservers(obs: seq<Observer>, template: string, region: bool, testing: bool) returns (r: Option<(Observer, ObserverFault)>)
    ensures r == CheckAll(obs, template, region, testing)
  {
    var ii := 0;
    while ii < |obs|
      invariant 0 <= ii <= |obs|
      invariant CheckAll(obs, template, region, testing) == CheckAll(obs[ii..], template, region, testing)
    {
      assert obs[ii..][0] == obs[ii] && obs[ii..][1..] == obs[ii + 1..];
      var c := ObserverCheck(obs[ii], template, region, testing);
      if c.Some? {
        assert CheckAll(obs[ii..], template, region, testing) == Some((obs[ii], c.value));
        return Some((obs[ii], c.value));
      }
      ii := ii + 1;
    }
    return None;
  }

  /** The columns a report template lists, with the time columns in the
      report's time format. */
  function TemplateColumns(template: string, timeFormat: string): seq<string>
  {
    if template == "AzimuthElevationRangeReport" then
      ["PassNumber", "Observer", "IntervalTime" + timeFormat, "IntervalAzimuth", "IntervalElevation", "IntervalRange"]
    else if template == "ContactRangeReport" then
      ["Observer", "Duration", "StartTime" + timeFormat, "EndTime" + timeFormat, "StartRange", "EndRange"]
    else if template == "SiteViewMaxElevationReport" then
      ["Observer", "StartTime" + timeFormat, "EndTime" + timeFormat, "Duration", "MaxElevation", "MaxElevationTime" + timeFormat]
    else if template == "SiteViewMaxElevationRangeReport" then
      ["Observer", "StartTime" + timeFormat, "EndTime" + timeFormat, "Duration", "MaxElevation", "MaxElevationTime" + timeFormat,
       "StartRange", "EndRange"]
    else []
  }

  /** The report set-up at the end of Initialize: the azimuth-elevation
      report needs intervals (None when it has none); the other known
      templates switch interval reporting off and zero the step; the
      columns are the template's. */
  function SetUpColumns(f: Fields): Option<Fields>
  {
    if f.template == "AzimuthElevationRangeReport" then
      if f.reportIntervals then Some(f.(columns := TemplateColumns(f.template, f.timeFormat)))
      else None
    else if f.template == "ContactRangeReport" || f.template == "SiteViewMaxElevationReport"
      || f.template == "SiteViewMaxElevationRangeReport" || f.template == "Legacy" then
      Some(f.(columns := TemplateColumns(f.template, f.timeFormat), reportIntervals := false, intervalStep := 0.0))
    else Some(f.(columns := []))
  }

  /** Of the known templates only the azimuth-elevation report reports
      intervals, and it is refused without them; every column set starts with the pass number
      or the observer, the time columns carry the time format, and Legacy
      has no columns. Nothing but the columns and the interval settings
      changes. */
  lemma ColumnRules(f: Fields)
    ensures SetUpColumns(f).None? <==> f.template == "AzimuthElevationRangeReport" && !f.reportIntervals
    ensures SetUpColumns(f).Some? ==>
      var g := SetUpColumns(f).value;
      && g == f.(columns := g.columns, reportIntervals := g.reportIntervals, intervalStep := g.intervalStep)
      && (g.reportIntervals && IsTemplate(f.template) ==> f.template == "AzimuthElevationRangeReport")
      && (IsTemplate(f.template) && f.template != "AzimuthElevationRangeReport" ==> g.intervalStep == 0.0)
      && (f.template == "Legacy" <==> IsTemplate(f.template) && g.columns == [])
      && (IsTemplate(f.template) && f.template != "Legacy" ==>
            |g.columns| >= 6 && (g.columns[0] == "Observer" || g.columns[0] == "PassNumber"))
  {
  }

  /** What Initialize depends on beyond the locator: whether the base
      class initialised, whether the target is a planetographic region,
      whether GMAT runs in testing mode, whether the locator's run mode is
      Disabled, and the outcome of writing the SPICE kernels for the
      observers. */
  datatype ContactEnv = ContactEnv(baseInitialized: bool, targetIsRegion: bool, testing: bool, runDisabled: bool, kernels: Outcome)

  /** Why Initialize throws. */
  datatype InitFault =
    | TooManyRegionObservers
    | UnresolvedObservers
    | RefusedObserver(o: Observer, e: ObserverFault)
    | KernelsNotWritten(msg: string)
    | IntervalsNeeded

  /** The checks of Initialize once the base class has initialised, in
      order: a region target allows one observer, every name must have its
      object, every observer must pass its checks, the kernels must be
      written (unless the locator is disabled), and the template's columns
      must be possible; on success, the fields with the columns set up. */
  function InitializeChecks(f: Fields, env: ContactEnv): Result2<Fields, InitFault>
  {
    if env.targetIsRegion && |f.observers| > 1 then Fault(TooManyRegionObservers)
    else if |f.names| != |f.observers| then Fault(UnresolvedObservers)
    else match CheckAll(f.observers, f.template, env.targetIsRegion, env.testing)
      case Some((o, e)) => Fault(RefusedObserver(o, e))
      case None =>
        if !env.runDisabled && env.kernels.Fail? then Fault(KernelsNotWritten(env.kernels.msg))
        else match SetUpColumns(f)
          case None => Fault(IntervalsNeeded)
          case Some(g) => Done(g)
  }

  /** Initialize succeeds exactly when a region target has at most one
      observer, every observer resolved and passes its checks, the kernels
      are written or not needed, and the template's columns can be set
      up; a success touches only the report columns and interval
      settings. */
  lemma InitializeChecksRules(f: Fields, env: ContactEnv)
    ensures InitializeChecks(f, env).Done? <==>
      && !(env.targetIsRegion && |f.observers| > 1)
      && |f.names| == |f.observers|
      && (forall i :: 0 <= i < |f.observers| ==> ObserverCheck(f.observers[i], f.template, env.targetIsRegion, env.testing) == None)
      && (env.runDisabled || env.kernels == Pass)
      && SetUpColumns(f).Some?
    ensures InitializeChecks(f, env).Done? ==> InitializeChecks(f, env).value == SetUpColumns(f).value
    ensures InitializeChecks(f, env).Fault? && InitializeChecks(f, env).fault.RefusedObserver? ==>
      ObserverCheck(InitializeChecks(f, env).fault.o, f.template, env.targetIsRegion, env.testing)
        == Some(InitializeChecks(f, env).fault.e)
      && InitializeChecks(f, env).fault.o in f.observers
  {
    CheckAllFirstFailure(f.observers, f.template, env.targetIsRegion, env.testing);
  }

  /** The message GMAT throws for a fault of Initialize. */
  function InitMessage(e: InitFault, name: string): string
  {
    match e
    case TooManyRegionObservers =>
      Text(["Error setting observers on ContactLocator ", name,
            ".\n If the target is a PlanetographicRegion, only one observer is allowed, and it must be a spacecraft."])
    case UnresolvedObservers =>
      Text(["Error setting observers on ContactLocator ", name, ". All observers must be either ground stations or spacecraft.\n"])
    case RefusedObserver(o, oe) => ObserverMessage(oe, o, name)
    case KernelsNotWritten(m) => m
    case IntervalsNeeded => Text(["ReportIntervals must be non-zero to create a \"AzimuthElevationRangeReport\""])
  }

  /** Initialize: false, with nothing changed, when the base class fails;
      otherwise the checks, whose fault is thrown with GMAT's message. */
  function InitializeSpec(f: Fields, name: string, env: ContactEnv): (Fields, Result<bool>)
  {
    if !env.baseInitialized then (f, Ok(false))
    else match InitializeChecks(f, env)
      case Fault(e) => (f, Err(InitMessage(e, name)))
      case Done(g) => (g, Ok(true))
  }

  /** Initialize answers false exactly when the base class fails, true
      exactly when the checks pass, and changes the locator only on
      success. */
  lemma InitializeAnswers(f: Fields, name: string, env: ContactEnv)
    ensures var r := InitializeSpec(f, name, env);
      && (r.1 == Ok(false) <==> !env.baseInitialized)
      && (r.1 == Ok(true) <==> env.baseInitialized && InitializeChecks(f, env).Done?)
      && (r.1 == Ok(true) ==> r.0 == InitializeChecks(f, env).value)
      && (r.1 != Ok(true) ==> r.0 == f)
  {
  }

  // ---------------------------------------------------------------------
  // Region crossing

  /** The bisection InterpolateRegionCrossing runs, n halvings of the
      interval from low to high: the midpoint replaces high when its
      in-region test agrees with the side high started on, and low
      otherwise. The final bracket is returned. */
  function Bisect(low: real, high: real, isWithin: bool, inside: real -> bool, n: nat): (real, real)
    decreases n
  {
    if n == 0 then (low, high)
    else
      var mid := (high + low) / 2.0;
      if inside(mid) == isWithin then Bisect(low, mid, isWithin, inside, n - 1)
      else Bisect(mid, high, isWithin, inside, n - 1)
  }

  /** Each halving keeps the bracket inside the starting interval and
      halves its width, and every end that has moved is on its own side of
      the crossing: a moved high end tests like the starting side, a moved
      low end does not. */
  lemma {:induction false} BisectBrackets(low: real, high: real, isWithin: bool, inside: real -> bool, n: nat)
    requires low <= high
    ensures var (l, h) := Bisect(low, high, isWithin, inside, n);
      && low <= l <= h <= high
      && (h - l) * Pow(2.0, n) == high - low
      && (h != high ==> inside(h) == isWithin)
      && (l != low ==> inside(l) != isWithin)
    decreases n
  {
    if n > 0 {
      var mid := (high + low) / 2.0;
      var (l, h) := Bisect(low, high, isWithin, inside, n);
      if inside(mid) == isWithin {
        BisectBrackets(low, mid, isWithin, inside, n - 1);
      } else {
        BisectBrackets(mid, high, isWithin, inside, n - 1);
      }
      var p := Pow(2.0, n - 1);
      assert (h - l) * p == (high - low) / 2.0;
      assert (h - l) * Pow(2.0, n) == ((h - l) * p) * 2.0;
    }
  }

  /** The loop of InterpolateRegionCrossing, for n halvings. */
  method Halve(low: real, high: real, isWithin: bool, inside: real -> bool, n: nat) returns (lo: real, hi: real)
    ensures (lo, hi) == Bisect(low, high, isWithin, inside, n)
  {
    lo, hi := low, high;
    var i := 0;
    while i < n
      invariant 0 <= i <= n
      invariant Bisect(lo, hi, isWithin, inside, n - i) == Bisect(low, high, isWithin, inside, n)
    {
      var checkEpoch := (hi + lo) / 2.0;
      if inside(checkEpoch) == isWithin {
        hi := checkEpoch;
      } else {
        lo := checkEpoch;
      }
      i := i + 1;
    }
  }

  /** InterpolateRegionCrossing: thirty halvings, then the midpoint of the
      final bracket, which lies inside the starting interval, between ends
      on either side of the crossing. The tolerance is not used. */
  method InterpolateRegionCrossing(low: real, high: real, isWithin: bool, tolerance: real, inside: real -> bool) returns (epoch: real)
    requires low <= high
    ensures var (l, h) := Bisect(low, high, isWithin, inside, 30);
      && epoch == (h + l) / 2.0 && low <= l <= epoch <= h <= high
      && (h != high ==> inside(h) == isWithin)
      && (l != low ==> inside(l) != isWithin)
  {
    var lo, hi := Halve(low, high, isWithin, inside, 30);
    BisectBrackets(low, high, isWithin, inside, 30);
    epoch := (hi + lo) / 2.0;
  }

  // ---------------------------------------------------------------------
  // Report order

  /** Event i is reported before event j: it starts earlier, or at the
      same time and comes first in the list of results. */
  predicate Before(starts: seq<real>, i: int, j: int)
    requires 0 <= i < |starts| && 0 <= j < |starts|
  {
    starts[i] < starts[j] || (starts[i] == starts[j] && i < j)
  }

  /** The scan of the report loop as written, over the events from k on:
      an event not yet numbered becomes the pick when the running start
      time is still the sentinel -1, or when it starts earlier. */
  function ScanAsWritten(starts: seq<real>, open: seq<bool>, k: nat, pick: int, compTime: real): int
    requires |open| == |starts| && k <= |starts|
    decreases |starts| - k
  {
    if k == |starts| then pick
    else if !open[k] then ScanAsWritten(starts, open, k + 1, pick, compTime)
    else
      var p1 := if compTime == -1.0 then k else pick;
      var c1 := if compTime == -1.0 then starts[k] else compTime;
      var p2 := if starts[k] < c1 then k else p1;
      var c2 := if starts[k] < c1 then starts[k] else c1;
      ScanAsWritten(starts, open, k + 1, p2, c2)
  }

  /** The event the report loop as written numbers next. */
  function PickAsWritten(starts: seq<real>, open: seq<bool>): int
    requires |open| == |starts|
  {
    ScanAsWritten(starts, open, 0, -1, -1.0)
  }

  /** An event that starts at -1 is taken for the sentinel: of two events
      starting at -1 and 5, the loop as written numbers the later one
      first. */
  lemma SentinelStartReorders()
    ensures PickAsWritten([-1.0, 5.0], [true, true]) == 1
    ensures Before([-1.0, 5.0], 0, 1)
  {
  }

  /** When no event starts at -1 the scan as written does pick the first
      earliest open event. */
  lemma {:induction false} ScanAsWrittenPicksEarliest(starts: seq<real>, open: seq<bool>, k: nat, pick: int, compTime: real)
    requires |open| == |starts| && k <= |starts|
    requires forall i :: 0 <= i < |starts| ==> starts[i] != -1.0
    requires compTime == -1.0 ==> forall j :: 0 <= j < k ==> !open[j]
    requires compTime != -1.0 ==>
      (0 <= pick < k && open[pick] && compTime == starts[pick]
       && forall j :: 0 <= j < k && open[j] && j != pick ==> Before(starts, pick, j))
    ensures var p := ScanAsWritten(starts, open, k, pick, compTime);
      (exists j :: 0 <= j < |starts| && open[j]) ==>
        0 <= p < |starts| && open[p] && forall j :: 0 <= j < |starts| && open[j] && j != p ==> Before(starts, p, j)
    decreases |starts| - k
  {
    if k < |starts| {
      if !open[k] {
        ScanAsWrittenPicksEarliest(starts, open, k + 1, pick, compTime);
      } else {
        var p1 := if compTime == -1.0 then k else pick;
        var c1 := if compTime == -1.0 then starts[k] else compTime;
        var p2 := if starts[k] < c1 then k else p1;
        var c2 := if starts[k] < c1 then starts[k] else c1;
        ScanAsWrittenPicksEarliest(starts, open, k + 1, p2, c2);
      }
    } else if compTime == -1.0 {
      assert forall j :: 0 <= j < |starts| ==> !open[j];
    }
  }

  /** The scan of the corrected loop: the first event that is not yet
      numbered (number -1) and starts no later than any other. */
  method FirstEarliest(starts: seq<real>, numbers: array<int>) returns (found: bool, pick: int)
    requires numbers.Length == |starts|
    ensures found <==> exists j :: 0 <= j < |starts| && numbers[j] == -1
    ensures found ==>
      (0 <= pick < |starts| && numbers[pick] == -1
       && forall j :: 0 <= j < |starts| && numbers[j] == -1 && j != pick ==> Before(starts, pick, j))
  {
    found, pick := false, 0;
    var compTime := 0.0;
    var k := 0;
    while k < |starts|
      invariant 0 <= k <= |starts|
      invariant !found ==> forall j :: 0 <= j < k ==> numbers[j] != -1
      invariant found ==>
        (0 <= pick < k && numbers[pick] == -1 && compTime == starts[pick]
         && forall j :: 0 <= j < k && numbers[j] == -1 && j != pick ==> Before(starts, pick, j))
    {
      if numbers[k] == -1 && (!found || starts[k] < compTime) {
        found, pick, compTime := true, k, starts[k];
      }
      k := k + 1;
    }
  }

  /** How many events are not yet numbered (number -1). */
  function OpenCount(s: seq<int>): nat
    decreases |s|
  {
    if s == [] then 0 else (if s[0] == -1 then 1 else 0) + OpenCount(s[1..])
  }

  /** Some event is still open exactly when the count is positive, and
      numbering an open event lowers the count by one. */
  lemma {:induction false} OpenCountRules(s: seq<int>, k: int, v: int)
    ensures OpenCount(s) > 0 <==> exists i :: 0 <= i < |s| && s[i] == -1
    ensures 0 <= k < |s| && s[k] == -1 && v != -1 ==> OpenCount(s[k := v]) == OpenCount(s) - 1
    decreases |s|
  {
    if s != [] {
      OpenCountRules(s[1..], k - 1, v);
      assert forall i :: 1 <= i < |s| ==> s[1..][i - 1] == s[i];
      if 0 < k < |s| {
        assert s[k := v][1..] == s[1..][k - 1 := v];
      } else if k == 0 {
        assert s[k := v][1..] == s[1..];
      }
    }
  }

  /** What the report loop keeps after numbering ii events: the numbers
      given are 0 to ii - 1, each once; every numbered event comes before
      every open one; and the numbers follow the report order. */
  ghost predicate NumberedInOrder(starts: seq<real>, s: seq<int>, ii: nat)
  {
    && |s| == |starts|
    && OpenCount(s) + ii == |s|
    && (forall i :: 0 <= i < |s| ==> -1 <= s[i] < ii)
    && (forall i, j :: 0 <= i < j < |s| && s[i] != -1 ==> s[i] != s[j])
    && (forall i, j :: 0 <= i < |s| && 0 <= j < |s| && s[i] != -1 && s[j] == -1 ==> Before(starts, i, j))
    && (forall i, j :: 0 <= i < |s| && 0 <= j < |s| && s[i] != -1 && s[j] != -1 && s[i] < s[j] ==> Before(starts, i, j))
  }

  /** Numbering the first earliest open event with ii keeps the order. */
  lemma NumberNext(starts: seq<real>, s: seq<int>, ii: nat, pick: int)
    requires NumberedInOrder(starts, s, ii)
    requires 0 <= pick < |s| && s[pick] == -1
    requires forall j :: 0 <= j < |s| && s[j] == -1 && j != pick ==> Before(starts, pick, j)
    ensures NumberedInOrder(starts, s[pick := ii], ii + 1)
  {
    OpenCountRules(s, pick, ii);
  }

  /** The report order, with a found flag in place of the sentinel start
      time: every event gets a distinct number from 0 up, in start order
      with ties kept in list order. */
  method NumberEvents(starts: seq<real>) returns (numbers: array<int>)
    ensures fresh(numbers) && numbers.Length == |starts|
    ensures forall i :: 0 <= i < |starts| ==> 0 <= numbers[i] < |starts|
    ensures forall i, j :: 0 <= i < j < |starts| ==> numbers[i] != numbers[j]
    ensures forall i, j :: 0 <= i < |starts| && 0 <= j < |starts| && numbers[i] < numbers[j] ==> Before(starts, i, j)
  {
    numbers := new int[|starts|](_ => -1);
    OpenCountAllOpen(numbers[..]);
    var ii := 0;
    while ii < |starts|
      invariant 0 <= ii <= |starts|
      invariant NumberedInOrder(starts, numbers[..], ii)
    {
      OpenCountRules(numbers[..], 0, 0);
      var found, pick := FirstEarliest(starts, numbers);
      NumberNext(starts, numbers[..], ii, pick);
      numbers[pick] := ii;
      ii := ii + 1;
    }
    OpenCountRules(numbers[..], 0, 0);
  }

  /** A list of open events counts all of them. */
  lemma {:induction false} OpenCountAllOpen(s: seq<int>)
    requires forall i :: 0 <= i < |s| ==> s[i] == -1
    ensures OpenCount(s) == |s|
    decreases |s|
  {
    if s != [] {
      assert forall i :: 0 <= i < |s[1..]| ==> s[1..][i] == s[i + 1];
      OpenCountAllOpen(s[1..]);
    }
  }

  // ---------------------------------------------------------------------
  // Imager frames

  /** C++ integer division by two, which truncates toward zero. */
  function HalfTowardZero(x: int): int
  {
    if x >= 0 then x / 2 else -((-x) / 2)
  }

  /** The magnitude of an integer. */
  function Magnitude(x: int): nat
  {
    if x < 0 then -x else x
  }

  /** The frame id of the kernel set-up's halving loop: halve (toward
      zero) while the magnitude exceeds 1000000. */
  function HalvedId(x: int): int
    decreases Magnitude(x)
  {
    if Magnitude(x) > 1000000 then HalvedId(HalfTowardZero(x)) else x
  }

  /** The halved id has at most seven digits and keeps the sign of the
      start; an id that had to be halved keeps at least half the limit,
      and one within the limit is kept. */
  lemma {:induction false} HalvedIdBounds(x: int)
    ensures Magnitude(HalvedId(x)) <= 1000000
    ensures Magnitude(x) <= 1000000 ==> HalvedId(x) == x
    ensures Magnitude(x) > 1000000 ==> Magnitude(HalvedId(x)) >= 500000
    ensures (x > 0 <==> HalvedId(x) > 0) && (x < 0 <==> HalvedId(x) < 0)
    decreases Magnitude(x)
  {
    if Magnitude(x) > 1000000 {
      HalvedIdBounds(HalfTowardZero(x));
    }
  }

  /** The id SetUpImagerSPICEFKandIK gives the imager at position indxNum
      of the direct observers: ten times the host's NAIF id, halved to at
      most seven digits, less the position. */
  method ImagerFrameId(observerNaifId: int, indxNum: int) returns (frameId: int)
    ensures frameId == HalvedId(observerNaifId * 10) - indxNum
  {
    frameId := observerNaifId * 10;
    while Magnitude(frameId) > 1000000
      invariant HalvedId(frameId) == HalvedId(observerNaifId * 10)
      decreases Magnitude(frameId)
    {
      frameId := HalfTowardZero(frameId);
    }
    frameId := frameId - indxNum;
  }

  /** ASCII upper case, as GmatStringUtil::ToUpper gives for plain names. */
  function Upper(s: string): (r: string)
    ensures |r| == |s|
    decreases |s|
  {
    if s == [] then []
    else [if 'a' <= s[0] <= 'z' then (s[0] as int - 32) as char else s[0]] + Upper(s[1..])
  }

  /** The imager's frame name: host and imager names in upper case joined by
      '_', cut to 25 characters when longer than 26. */
  function ImagerFrameName(host: string, imager: string): (r: string)
  {
    var n := Upper(host) + "_" + Upper(imager);
    if |n| > 26 then n[..25] else n
  }

  /** The frame name never exceeds 26 characters, and a short one is the
      whole upper-case join with the '_' after the host's name. */
  lemma FrameNameRules(host: string, imager: string)
    ensures |ImagerFrameName(host, imager)| <= 26
    ensures |host| + |imager| + 1 <= 26 ==>
      |ImagerFrameName(host, imager)| == |host| + |imager| + 1 && ImagerFrameName(host, imager)[|host|] == '_'
      && ImagerFrameName(host, imager)[..|host|] == Upper(host)
    ensures |host| + |imager| + 1 > 26 ==> |ImagerFrameName(host, imager)| == 25
  {
  }

  // ---------------------------------------------------------------------
  // The locator object

  /** A contact locator: its name, the fields above, and the two settings
      of the base class it overrides or sets (the search step and the
      string it reports while locating). */
  class ContactLocator {
    var instanceName: string
    var names: seq<string>
    var observers: seq<Observer>
    var lightTime: string
    var leftJustified: bool
    var precision: int
    var intervalStep: real
    var reportIntervals: bool
    var timeFormat: string
    var template: string
    var columns: seq<string>
    var results: nat
    var stepSize: real
    var locatingString: string

    /** The locator's own fields as a value. */
    function Snap(): Fields
      reads this
    {
      Fields(names, observers, lightTime, leftJustified, precision, intervalStep, reportIntervals,
             timeFormat, template, columns, results)
    }

    /** Stores the fields of a value. */
    method Store(g: Fields)
      modifies this
      ensures Snap() == g
      ensures instanceName == old(instanceName) && stepSize == old(stepSize) && locatingString == old(locatingString)
    {
      names, observers, lightTime, leftJustified, precision := g.names, g.observers, g.lightTime, g.leftJustified, g.precision;
      intervalStep, reportIntervals, timeFormat, template := g.intervalStep, g.reportIntervals, g.timeFormat, g.template;
      columns, results := g.columns, g.results;
    }

    /** The constructor: no observers and no results, light time in the
      Transmit direction and a search step of 10 seconds; the report
      settings the header initialises are given. */
    constructor(name: string, report: Fields)
      ensures instanceName == name && stepSize == 10.0
      ensures Snap() == report.(names := [], observers := [], results := 0, lightTime := "Transmit")
    {
      instanceName, stepSize, locatingString := name, 10.0, "";
      names, observers, lightTime, leftJustified, precision := [], [], "Transmit", report.leftJustified, report.precision;
      intervalStep, reportIntervals, timeFormat, template := report.intervalStep, report.reportIntervals, report.timeFormat, report.template;
      columns, results := report.columns, 0;
    }

    /** The assignment operator: every field of the other locator, its
      observer list and a copy of its results; the name is kept, and
      assigning a locator to itself changes nothing. */
    method Assign(c: ContactLocator)
      modifies this
      ensures Snap() == old(c.Snap()) && instanceName == old(instanceName)
      ensures c == this ==> Snap() == old(Snap())
    {
      if c != this {
        var g := c.Snap();
        Store(g);
      }
    }

    /** SetIntegerParameter: the precision is checked and stored; any other
      id is the base class's, whose answer is returned. */
    method SetIntegerParameter(p: ContactParam, value: int, baseValue: int) returns (r: Result<int>)
      modifies this
      ensures p == ReportPrecision ==> (Snap(), r) == SetPrecision(old(Snap()), value, instanceName)
      ensures p != ReportPrecision ==> Snap() == old(Snap()) && r == Ok(baseValue)
      ensures instanceName == old(instanceName)
    {
      if p == ReportPrecision {
        if value < 0 {
          return Err(PrecisionMessage(value, instanceName));
        }
        precision := value;
        return Ok(precision);
      }
      return Ok(baseValue);
    }

    /** SetRealParameter: the interval step is checked and stored; any other
      id is the base class's, whose answer is returned. */
    method SetRealParameter(p: ContactParam, value: real, valueText: string, baseValue: real) returns (r: Result<real>)
      modifies this
      ensures p == IntervalStepSize ==> (Snap(), r) == SetIntervalStep(old(Snap()), value, valueText, instanceName)
      ensures p != IntervalStepSize ==> Snap() == old(Snap()) && r == Ok(baseValue)
      ensures instanceName == old(instanceName)
    {
      if p == IntervalStepSize {
        if value < 0.0 {
          return Err(IntervalMessage(valueText, instanceName));
        }
        intervalStep := value;
        if value != 0.0 {
          reportIntervals := true;
        }
        return Ok(intervalStep);
      }
      return Ok(baseValue);
    }

    /** SetStringParameter: the light time direction, an observer name,
      the report time format and the template; anything else goes to the
      base class. */
    method SetStringParameter(p: ContactParam, value: string, baseSet: bool) returns (r: Result<bool>)
      modifies this
      ensures (Snap(), r) == SetString(old(Snap()), p, value, instanceName, baseSet)
      ensures instanceName == old(instanceName)
    {
      if p == LightTimeDirection {
        r := SetLightTime(value);
      } else if p == Observers {
        r := AddObserverName(value);
      } else if p == ReportTimeFormat {
        r := SetTimeFormat(value);
      } else if p == ReportFormat {
        r := SetTemplate(value);
      } else {
        r := Ok(baseSet);
      }
    }

    /** The light time branch of SetStringParameter. */
    method SetLightTime(value: string) returns (r: Result<bool>)
      modifies this
      ensures (Snap(), r) == SetString(old(Snap()), LightTimeDirection, value, instanceName, true)
      ensures instanceName == old(instanceName)
    {
      if value == "Transmit" || value == "Receive" {
        lightTime := value;
        r := Ok(true);
      } else {
        r := Err(LightTimeMessage(value, instanceName));
      }
    }

    /** The observer branch of SetStringParameter: a new name is appended. */
    method AddObserverName(value: string) returns (r: Result<bool>)
      modifies this
      ensures (Snap(), r) == SetString(old(Snap()), Observers, value, instanceName, true)
      ensures instanceName == old(instanceName)
    {
      if value !in names {
        names := names + [value];
      }
      r := Ok(true);
    }

    /** The time format branch of SetStringParameter. */
    method SetTimeFormat(value: string) returns (r: Result<bool>)
      modifies this
      ensures (Snap(), r) == SetString(old(Snap()), ReportTimeFormat, value, instanceName, true)
      ensures instanceName == old(instanceName)
    {
      if IsTimeFormat(value) {
        timeFormat := value;
        r := Ok(true);
      } else {
        r := Err(TimeFormatMessage());
      }
    }

    /** The template branch of SetStringParameter. */
    method SetTemplate(value: string) returns (r: Result<bool>)
      modifies this
      ensures (Snap(), r) == SetString(old(Snap()), ReportFormat, value, instanceName, true)
      ensures instanceName == old(instanceName)
    {
      if IsTemplate(value) {
        template := value;
        r := Ok(true);
      } else {
        r := Err(TemplateMessage());
      }
    }

    /** The indexed GetStringParameter for the observer list (with the
      index test corrected); any other id is the base class's. */
    method GetStringParameterAt(p: ContactParam, index: int, baseValue: string) returns (r: Result<string>)
      ensures p == Observers ==> r == GetObserver(names, index, instanceName)
      ensures p != Observers ==> r == Ok(baseValue)
    {
      if p == Observers {
        if 0 <= index < |names| {
          return Ok(names[index]);
        }
        return Err(ObserverIndexMessage(instanceName));
      }
      return Ok(baseValue);
    }

    /** The indexed SetStringParameter for the observer list (with the
      index test corrected); any other id is the base class's. */
    method SetStringParameterAt(p: ContactParam, value: string, index: int, baseSet: bool) returns (r: bool)
      modifies this
      ensures p == Observers ==> (names, r) == SetObserver(old(names), value, index) && Snap() == old(Snap()).(names := names)
      ensures p != Observers ==> Snap() == old(Snap()) && r == baseSet
      ensures instanceName == old(instanceName)
    {
      if p == Observers {
        if value !in names {
          if 0 <= index < |names| {
            names := names[index := value];
          } else {
            names := names + [value];
          }
        }
        return true;
      }
      return baseSet;
    }

    /** SetBooleanParameter: justification is the locator's; any other id
      is the base class's. */
    method SetBooleanParameter(p: ContactParam, value: bool, baseSet: bool) returns (r: bool)
      modifies this
      ensures p == LeftJustified ==> Snap() == old(Snap()).(leftJustified := value) && r
      ensures p != LeftJustified ==> Snap() == old(Snap()) && r == baseSet
      ensures instanceName == old(instanceName)
    {
      if p == LeftJustified {
        leftJustified := value;
        return true;
      }
      return baseSet;
    }

    /** RenameRefObject, one observer at a time. */
    method RenameRefObject(t: RefType, oldName: string, newName: string, baseRenamed: bool) returns (r: bool)
      modifies this
      ensures (names, r) == Rename(old(names), t, oldName, newName, baseRenamed)
      ensures Snap() == old(Snap()).(names := names) && instanceName == old(instanceName)
    {
      r := false;
      if t != OtherType {
        var orig := names;
        var renamed := orig;
        var i := 0;
        while i < |renamed|
          invariant 0 <= i <= |renamed| == |orig|
          invariant forall j :: i <= j < |renamed| ==> renamed[j] == orig[j]
          invariant renamed[..i] == RenameAll(orig[..i], oldName, newName)
          invariant r <==> oldName in orig[..i]
          invariant Snap() == old(Snap()) && instanceName == old(instanceName)
        {
          RenameAllSnoc(orig[..i], orig[i], oldName, newName);
          assert orig[..i + 1] == orig[..i] + [orig[i]];
          if renamed[i] == oldName {
            renamed := renamed[i := newName];
            r := true;
          }
          i := i + 1;
        }
        assert orig[..i] == orig && renamed[..i] == renamed;
        names := renamed;
      }
      r := r || baseRenamed;
    }

    /** TakeAction: "Clear" empties the lists its data names (corrected so
      that "" clears both); any other action is the base class's. */
    method TakeAction(action: string, data: string, baseResult: bool) returns (r: bool)
      modifies this
      ensures action == "Clear" ==> (Snap(), r) == Clear(old(Snap()), data, baseResult)
      ensures action != "Clear" ==> Snap() == old(Snap()) && r == baseResult
      ensures instanceName == old(instanceName)
    {
      if action == "Clear" {
        var cleared := false;
        if data == "Observers" || data == "" {
          names, observers := [], [];
          cleared := true;
        }
        if data == "Events" || data == "" {
          results := 0;
          cleared := true;
        }
        return baseResult || cleared;
      }
      return baseResult;
    }

    /** Initialize; the locating string is set whenever it returns
      without a throw. */
    method Initialize(env: ContactEnv) returns (r: Result<bool>)
      modifies this
      ensures (Snap(), r) == InitializeSpec(old(Snap()), instanceName, env)
      ensures r.Ok? ==> locatingString == "ContactLocator"
      ensures instanceName == old(instanceName)
    {
      if !env.baseInitialized {
        SetLocatingString();
        return Ok(false);
      }
      var checked := RunChecks(env);
      match checked
      case Fault(e) =>
        return Err(InitMessage(e, instanceName));
      case Done(g) =>
        Store(g);
        SetLocatingString();
        return Ok(true);
    }

    /** The checks and column set-up of Initialize, on the current fields. */
    method RunChecks(env: ContactEnv) returns (r: Result2<Fields, InitFault>)
      ensures r == InitializeChecks(Snap(), env)
    {
      if env.targetIsRegion && |observers| > 1 {
        return Fault(TooManyRegionObservers);
      }
      if |names| != |observers| {
        return Fault(UnresolvedObservers);
      }
      var refused := CheckObservers(observers, template, env.targetIsRegion, env.testing);
      if refused.Some? {
        return Fault(RefusedObserver(refused.value.0, refused.value.1));
      }
      if !env.runDisabled && env.kernels.Fail? {
        return Fault(KernelsNotWritten(env.kernels.msg));
      }
      var g := SetUpColumns(Snap());
      if g.None? {
        return Fault(IntervalsNeeded);
      }
      return Done(g.value);
    }

    /** SetLocatingString("ContactLocator"). */
    method SetLocatingString()
      modifies this
      ensures Snap() == old(Snap()) && instanceName == old(instanceName) && locatingString == "ContactLocator"
    {
      locatingString := "ContactLocator";
    }
  }

  /** Renaming a list extended by one name extends the renamed list by
      that name, renamed. */
  lemma {:induction false} RenameAllSnoc(names: seq<string>, x: string, oldName: string, newName: string)
    ensures RenameAll(names + [x], oldName, newName) == RenameAll(names, oldName, newName) + [if x == oldName then newName else x]
    decreases |names|
  {
    if names != [] {
      assert (names + [x])[1..] == names[1..] + [x];
      RenameAllSnoc(names[1..], x, oldName, newName);
    }
  }
}
