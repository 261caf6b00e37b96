/**
 * The `upload-encounter` command on a parsed FHIR resource: the resource
 * type dispatch, the extraction of identifiers and problems from an
 * Encounter, and the classification of each coding as a NAMASTE or ICD-11
 * code.  The `findOne` lookups are in-memory maps and the `Date.now()`
 * fallback is a parameter.  Property reads on `null` and calls of a method
 * the value does not have are the JavaScript TypeError, surfaced as an error.
 */
module UploadEncounter {
  import opened Wrappers
  import opened Strings
  import opened Json
  import opened Terminology
  import opened FhirUtils

  datatype UploadError =
    | InvalidResource                 // the validator rejected the resource
    | NoEncounterInBundle
    | UnsupportedType(resourceType: Json)
    | TypeError                       // a JavaScript TypeError

  /** The stored NAMASTE names by code and ICD titles by code and type. */
  datatype Lookups = Lookups(namasteNames: map<Json, string>, icdTitles: map<IcdLookup, string>)
  datatype IcdLookup = IcdLookup(code: Json, icdType: IcdType)

  /** A problem object under construction; an absent field is `None`. */
  datatype Fields = Fields(
    namasteCode: Option<Json>, icdCode: Option<Json>, icdType: Option<IcdType>,
    description: Option<Json>, severity: Option<string>)

  const NoFields := Fields(None, None, None, None, None)
  const DefaultProblem := Fields(None, None, None, Some(JString("Encounter recorded without specific problem")), Some("moderate"))

  /** The record saved for an encounter; `encounterDate` `None` is the current time. */
  datatype EncounterRecord = EncounterRecord(
    encounterId: Json, patientId: string, problems: seq<Fields>, encounterDate: Option<Json>)

  // ---------------------------------------------------------------------------
  // Coding classification

  /** Strings and arrays have `includes`; calling it on anything else throws. */
  predicate HasIncludes(v: Json) {
    v.JString? || v.JArray?
  }

  predicate Includes(v: Json, p: string)
    requires HasIncludes(v)
  {
    if v.JString? then Contains(v.s, p) else JString(p) in v.items
  }

  predicate IsNamasteSystem(system: Json)
    requires HasIncludes(system)
  {
    Includes(system, "namaste") || Includes(system, "ayush")
  }

  predicate IsIcdSystem(system: Json)
    requires HasIncludes(system)
  {
    Includes(system, "icd") || Includes(system, "who")
  }

  /**
   * The ICD type of a coding: TM2 when the system mentions `tm2` or the code
   * starts with `TM2` (only strings have `startsWith`), Biomedicine otherwise.
   */
  function IcdTypeOf(system: Json, code: Json): (r: Result<IcdType, UploadError>)
    requires HasIncludes(system)
    ensures r.Failure? <==> !Includes(system, "tm2") && !code.JString?
    ensures r == Success(TM2) <==> Includes(system, "tm2") || (code.JString? && StartsWith(code.s, "TM2"))
  {
    if Includes(system, "tm2") then Success(TM2)
    else if !code.JString? then Failure(TypeError)
    else if StartsWith(code.s, "TM2") then Success(TM2)
    else Success(Biomedicine)
  }

  /** The display of a coding when truthy, else the stored name. */
  function DisplayOr(coding: Json, stored: string): Json {
    if Truthy(Get(coding, "display")) then coding.fields["display"] else JString(stored)
  }

  /** One turn of the `processCodeableConcept` loop. */
  function ApplyCoding(result: Fields, coding: Json, lk: Lookups): Result<Fields, UploadError> {
    if coding.JNull? then Failure(TypeError)
    else if !Truthy(Get(coding, "system")) || !Truthy(Get(coding, "code")) then Success(result)
    else
      var system, code := coding.fields["system"], coding.fields["code"];
      if !HasIncludes(system) then Failure(TypeError)
      else if IsNamasteSystem(system) then
        if code in lk.namasteNames then
          Success(result.(namasteCode := Some(code), description := Some(DisplayOr(coding, lk.namasteNames[code]))))
        else Success(result)
      else if IsIcdSystem(system) then
        match IcdTypeOf(system, code)
        case Failure(e) => Failure(e)
        case Success(t) =>
          if IcdLookup(code, t) in lk.icdTitles then
            Success(result.(icdCode := Some(code), icdType := Some(t),
                            description := Some(DisplayOr(coding, lk.icdTitles[IcdLookup(code, t)]))))
          else Success(result)
      else Success(result)
  }

  /** The loop over the codings from `result` on; the first TypeError ends it. */
  function CodingsFrom(result: Fields, codings: seq<Json>, lk: Lookups): Result<Fields, UploadError>
    decreases |codings|
  {
    if codings == [] then Success(result)
    else
      match ApplyCoding(result, codings[0], lk)
      case Failure(e) => Failure(e)
      case Success(next) => CodingsFrom(next, codings[1..], lk)
  }

  /** `processCodeableConcept`: `None` is the `null` returned without a `coding` array. */
  function ConceptFields(concept: Json, lk: Lookups): Result<Option<Fields>, UploadError> {
    if concept.JNull? then Failure(TypeError)
    else if !Truthy(Get(concept, "coding")) || !concept.fields["coding"].JArray? then Success(None)
    else
      match CodingsFrom(NoFields, concept.fields["coding"].items, lk)
      case Failure(e) => Failure(e)
      case Success(f) => Success(Some(f))
  }

  /** The `processCodeableConcept` loop. */
  method ProcessCodeableConcept(concept: Json, lk: Lookups) returns (r: Result<Option<Fields>, UploadError>)
    ensures r == ConceptFields(concept, lk)
  {
    if concept.JNull? {
      return Failure(TypeError);
    }
    var coding := Get(concept, "coding");
    if !Truthy(coding) || !coding.value.JArray? {
      return Success(None);
    }
    var codings := coding.value.items;
    var result := NoFields;
    for i := 0 to |codings|
      invariant CodingsFrom(result, codings[i..], lk) == CodingsFrom(NoFields, codings, lk)
    {
      assert codings[i..][0] == codings[i] && codings[i..][1..] == codings[i + 1..];
      var step := ApplyCoding(result, codings[i], lk);
      if step.Failure? {
        return Failure(step.error);
      }
      result := step.value;
    }
    return Success(Some(result));
  }

  /** The code fields are only ever set from a coding the lookups know. */
  lemma {:induction false} CodingsFromKnown(result: Fields, codings: seq<Json>, lk: Lookups)
    requires result.namasteCode.Some? ==> result.namasteCode.value in lk.namasteNames
    requires result.icdCode.Some? ==> result.icdType.Some? && IcdLookup(result.icdCode.value, result.icdType.value) in lk.icdTitles
    ensures var r := CodingsFrom(result, codings, lk);
      r.Success? ==>
        && (r.value.namasteCode.Some? ==> r.value.namasteCode.value in lk.namasteNames)
        && (r.value.icdCode.Some? ==>
              r.value.icdType.Some? && IcdLookup(r.value.icdCode.value, r.value.icdType.value) in lk.icdTitles)
    decreases |codings|
  {
    if codings != [] {
      var step := ApplyCoding(result, codings[0], lk);
      if step.Success? {
        CodingsFromKnown(step.value, codings[1..], lk);
      }
    }
  }

  /**
   * Later codings overwrite earlier ones: when the last coding is a known
   * NAMASTE code, that code is the result's, whatever came before.
   */
  lemma {:induction false} LastNamasteCodingWins(result: Fields, codings: seq<Json>, lk: Lookups)
    requires codings != []
    requires var last := codings[|codings| - 1];
      && last.JObject? && Truthy(Get(last, "system")) && Truthy(Get(last, "code"))
      && HasIncludes(last.fields["system"]) && IsNamasteSystem(last.fields["system"])
      && last.fields["code"] in lk.namasteNames
    ensures var r := CodingsFrom(result, codings, lk);
      r.Success? ==> r.value.namasteCode == Some(codings[|codings| - 1].fields["code"])
    decreases |codings|
  {
    var step := ApplyCoding(result, codings[0], lk);
    if |codings| > 1 && step.Success? {
      assert codings[1..][|codings[1..]| - 1] == codings[|codings| - 1];
      LastNamasteCodingWins(step.value, codings[1..], lk);
    }
  }

  /** A coding from a system naming neither NAMASTE nor ICD leaves the result unchanged. */
  lemma OtherSystemIgnored(result: Fields, coding: Json, lk: Lookups)
    requires coding.JObject? && Truthy(Get(coding, "system")) && Truthy(Get(coding, "code"))
    requires HasIncludes(coding.fields["system"])
    requires !IsNamasteSystem(coding.fields["system"]) && !IsIcdSystem(coding.fields["system"])
    ensures ApplyCoding(result, coding, lk) == Success(result)
  {
  }

  /** An ICD coding is looked up under TM2 when its system says `tm2` or its code starts with `TM2`. */
  lemma IcdCodingClassified(coding: Json, lk: Lookups)
    requires coding.JObject? && Truthy(Get(coding, "system")) && Truthy(Get(coding, "code"))
    requires coding.fields["system"].JString? && coding.fields["code"].JString?
    requires !IsNamasteSystem(coding.fields["system"]) && IsIcdSystem(coding.fields["system"])
    ensures var system, code := coding.fields["system"].s, coding.fields["code"];
      var t := if Contains(system, "tm2") || StartsWith(code.s, "TM2") then TM2 else Biomedicine;
      ApplyCoding(NoFields, coding, lk) ==
        if IcdLookup(code, t) in lk.icdTitles then
          Success(NoFields.(icdCode := Some(code), icdType := Some(t), description := Some(DisplayOr(coding, lk.icdTitles[IcdLookup(code, t)]))))
        else Success(NoFields)
  {
  }

  // ---------------------------------------------------------------------------
  // Diagnoses and problems

  /** `processDiagnosis`: `None` is the `null` returned without `condition.reference`. */
  function DiagnosisProblem(diagnosis: Json, lk: Lookups): Result<Option<Fields>, UploadError> {
    if diagnosis.JNull? then Failure(TypeError)
    else
      var condition := Get(diagnosis, "condition");
      if condition.None? || !Truthy(Get(condition.value, "reference")) then Success(None)
      else
        var c := condition.value;
        var display := Get(c, "display");
        var base := Fields(None, None, None,
                           Some(if Truthy(display) then display.value else JString("Diagnosis condition")), Some("moderate"));
        if !Truthy(Get(c, "coding")) then Success(Some(base))
        else
          match ConceptFields(c, lk)
          case Failure(e) => Failure(e)
          case Success(None) => Success(Some(base))
          case Success(Some(codes)) => Success(Some(Assign(base, codes)))
  }

  /** `Object.assign(problem, codes)`: the fields `codes` holds replace the problem's. */
  function Assign(base: Fields, codes: Fields): Fields {
    Fields(
      if codes.namasteCode.Some? then codes.namasteCode else base.namasteCode,
      if codes.icdCode.Some? then codes.icdCode else base.icdCode,
      if codes.icdType.Some? then codes.icdType else base.icdType,
      if codes.description.Some? then codes.description else base.description,
      if codes.severity.Some? then codes.severity else base.severity)
  }

  /** The coding loop never sets a severity. */
  lemma {:induction false} CodingsKeepSeverity(result: Fields, codings: seq<Json>, lk: Lookups)
    ensures CodingsFrom(result, codings, lk).Success? ==> CodingsFrom(result, codings, lk).value.severity == result.severity
    decreases |codings|
  {
    if codings != [] {
      var step := ApplyCoding(result, codings[0], lk);
      if step.Success? {
        CodingsKeepSeverity(step.value, codings[1..], lk);
      }
    }
  }

  /**
   * A diagnosis problem exists exactly when the diagnosis has a truthy
   * `condition.reference`; it always has a description and severity
   * `moderate`, and its description is the condition's display, else the
   * display or stored name of its last known coding, else `Diagnosis condition`.
   */
  lemma DiagnosisProblemShape(diagnosis: Json, lk: Lookups)
    requires !diagnosis.JNull?
    ensures var r := DiagnosisProblem(diagnosis, lk);
      var condition := Get(diagnosis, "condition");
      && (r.Success? && r.value.None? <==> condition.None? || !Truthy(Get(condition.value, "reference")))
      && (r.Success? && r.value.Some? ==> r.value.value.description.Some? && r.value.value.severity == Some("moderate"))
  {
    var condition := Get(diagnosis, "condition");
    if condition.Some? && Truthy(Get(condition.value, "reference")) {
      var c := condition.value;
      if Truthy(Get(c, "coding")) && c.fields["coding"].JArray? {
        CodingsKeepSeverity(NoFields, c.fields["coding"].items, lk);
      }
    }
  }

  /** A diagnosis with a condition reference and no display or coding is the default diagnosis problem. */
  lemma DiagnosisDefaults(reference: string, lk: Lookups)
    requires reference != ""
    ensures var d := JObject(map["condition" := JObject(map["reference" := JString(reference)])]);
      DiagnosisProblem(d, lk) == Success(Some(Fields(None, None, None, Some(JString("Diagnosis condition")), Some("moderate"))))
  {
    var c := JObject(map["reference" := JString(reference)]);
    assert Get(c, "display") == None && Get(c, "coding") == None;
  }

  /** The diagnosis loop from `problems` on: each problem found is appended. */
  function DiagnosesFrom(problems: seq<Fields>, diagnoses: seq<Json>, lk: Lookups): Result<seq<Fields>, UploadError>
    decreases |diagnoses|
  {
    if diagnoses == [] then Success(problems)
    else
      match DiagnosisProblem(diagnoses[0], lk)
      case Failure(e) => Failure(e)
      case Success(p) => DiagnosesFrom(problems + (if p.Some? then [p.value] else []), diagnoses[1..], lk)
  }

  /** The reason-code loop from `problems` on. */
  function ReasonsFrom(problems: seq<Fields>, reasons: seq<Json>, lk: Lookups): Result<seq<Fields>, UploadError>
    decreases |reasons|
  {
    if reasons == [] then Success(problems)
    else
      match ConceptFields(reasons[0], lk)
      case Failure(e) => Failure(e)
      case Success(p) => ReasonsFrom(problems + (if p.Some? then [p.value] else []), reasons[1..], lk)
  }

  /** The problems from `diagnosis`, when it is an array. */
  function DiagnosisProblems(resource: Json, lk: Lookups): Result<seq<Fields>, UploadError> {
    var diagnosis := Get(resource, "diagnosis");
    if Truthy(diagnosis) && diagnosis.value.JArray? then DiagnosesFrom([], diagnosis.value.items, lk)
    else Success([])
  }

  /**
   * The problems from `reasonCode`, iterated with `for ... of`: an array's
   * elements; a string's characters, none of which has a `coding`; anything
   * else is not iterable.
   */
  function ReasonProblems(reasonCode: Json, lk: Lookups): Result<seq<Fields>, UploadError> {
    match reasonCode
    case JArray(items) => ReasonsFrom([], items, lk)
    case JString(_) => Success([])
    case _ => Failure(TypeError)
  }

  /**
   * The problem list of `processEncounterResource`: the diagnosis problems;
   * only when there are none, the reason-code problems; when still none, the
   * default problem.
   */
  function EncounterProblems(resource: Json, lk: Lookups): (r: Result<seq<Fields>, UploadError>)
    ensures r.Success? ==> |r.value| >= 1
  {
    match DiagnosisProblems(resource, lk)
    case Failure(e) => Failure(e)
    case Success(fromDiagnosis) =>
      if fromDiagnosis != [] then Success(fromDiagnosis)
      else
        var reasons :=
          if Truthy(Get(resource, "reasonCode")) then ReasonProblems(resource.fields["reasonCode"], lk)
          else Success([]);
        match reasons
        case Failure(e) => Failure(e)
        case Success(found) => Success(if found == [] then [DefaultProblem] else found)
  }

  /** `subject.reference` with its first `Patient/` removed, or the fallback when that is empty or absent. */
  function PatientId(resource: Json, fallback: string): Result<string, UploadError> {
    var subject := Get(resource, "subject");
    var reference := if subject.Some? then Get(subject.value, "reference") else None;
    if reference.None? || reference.value.JNull? then Success(fallback)
    else if !reference.value.JString? then Failure(TypeError)
    else
      var id := ReplaceFirst(reference.value.s, "Patient/", "");
      Success(if id != "" then id else fallback)
  }

  /** `processEncounterResource`, with `clock` the `Date.now()` digits used in the fallback ids. */
  function EncounterRecordOf(resource: Json, lk: Lookups, clock: string): Result<EncounterRecord, UploadError>
    requires resource.JObject?
  {
    var id := Get(resource, "id");
    var encounterId := if Truthy(id) then id.value else JString("enc-" + clock);
    match PatientId(resource, "patient-" + clock)
    case Failure(e) => Failure(e)
    case Success(patientId) =>
      var period := Get(resource, "period");
      var start := if period.Some? then Get(period.value, "start") else None;
      var date := if Truthy(start) then start else None;
      match EncounterProblems(resource, lk)
      case Failure(e) => Failure(e)
      case Success(problems) => Success(EncounterRecord(encounterId, patientId, problems, date))
  }

  /** The `processEncounterResource` loops. */
  method ProcessEncounterResource(resource: Json, lk: Lookups, clock: string) returns (r: Result<EncounterRecord, UploadError>)
    requires resource.JObject?
    ensures r == EncounterRecordOf(resource, lk, clock)
  {
    var id := Get(resource, "id");
    var encounterId := if Truthy(id) then id.value else JString("enc-" + clock);
    var patient := PatientId(resource, "patient-" + clock);
    if patient.Failure? {
      return Failure(patient.error);
    }
    var period := Get(resource, "period");
    var start := if period.Some? then Get(period.value, "start") else None;
    var date := if Truthy(start) then start else None;

    var problems: seq<Fields> := [];
    var diagnosis := Get(resource, "diagnosis");
    if Truthy(diagnosis) && diagnosis.value.JArray? {
      var ds := diagnosis.value.items;
      for i := 0 to |ds|
        invariant DiagnosesFrom(problems, ds[i..], lk) == DiagnosesFrom([], ds, lk)
      {
        assert ds[i..][0] == ds[i] && ds[i..][1..] == ds[i + 1..];
        var p := DiagnosisProblem(ds[i], lk);
        if p.Failure? {
          return Failure(p.error);
        }
        if p.value.Some? {
          problems := problems + [p.value.value];
        } else {
          assert problems + [] == problems;
        }
      }
    }
    assert DiagnosisProblems(resource, lk) == Success(problems);
    ghost var fromDiagnosis := problems;

    var reasonCode := Get(resource, "reasonCode");
    if |problems| == 0 && Truthy(reasonCode) {
      match reasonCode.value {
        case JArray(rs) =>
          for i := 0 to |rs|
            invariant ReasonsFrom(problems, rs[i..], lk) == ReasonsFrom([], rs, lk)
          {
            assert rs[i..][0] == rs[i] && rs[i..][1..] == rs[i + 1..];
            var p := ProcessCodeableConcept(rs[i], lk);
            if p.Failure? {
              return Failure(p.error);
            }
            if p.value.Some? {
              problems := problems + [p.value.value];
            } else {
              assert problems + [] == problems;
            }
          }
          assert rs[|rs|..] == [];
        case JString(_) =>
        case _ =>
          return Failure(TypeError);
      }
    }
    ghost var found := problems;
    assert EncounterProblems(resource, lk) ==
      if fromDiagnosis != [] then Success(fromDiagnosis)
      else Success(if found == [] then [DefaultProblem] else found);
    if |problems| == 0 {
      problems := [DefaultProblem];
    }
    return Success(EncounterRecord(encounterId, patient.value, problems, date));
  }

  /** An encounter with diagnosis problems keeps exactly those; `reasonCode` is not consulted. */
  lemma ReasonCodeOnlyWithoutDiagnosis(resource: Json, lk: Lookups)
    requires DiagnosisProblems(resource, lk).Success? && DiagnosisProblems(resource, lk).value != []
    ensures EncounterProblems(resource, lk) == DiagnosisProblems(resource, lk)
  {
  }

  /** An encounter with neither diagnosis nor reason code gets the default problem alone. */
  lemma DefaultProblemAlone(resource: Json, lk: Lookups)
    requires resource.JObject? && "diagnosis" !in resource.fields && "reasonCode" !in resource.fields
    ensures EncounterProblems(resource, lk) == Success([DefaultProblem])
  {
  }

  /** The patient id drops the `Patient/` prefix of the subject reference. */
  lemma PatientPrefixRemoved(resource: Json, rest: string, fallback: string)
    requires resource.JObject? && "subject" in resource.fields
    requires Get(resource.fields["subject"], "reference") == Some(JString("Patient/" + rest))
    ensures PatientId(resource, fallback) == Success(if rest != "" then rest else fallback)
  {
    var s := "Patient/" + rest;
    assert StartsWith(s, "Patient/");
    assert s[|"Patient/"|..] == rest;
    assert ReplaceFirst(s, "Patient/", "") == "" + rest == rest;
  }

  // ---------------------------------------------------------------------------
  // Dispatch

  predicate IsEncounterEntry(entry: Json)
    requires !entry.JNull?
  {
    var resource := Get(entry, "resource");
    resource.Some? && Get(resource.value, "resourceType") == Some(JString("Encounter"))
  }

  /** Entry `k` is `null` and every entry before it is a non-null entry without an Encounter, so `find` throws there. */
  predicate NullBeforeEncounter(entries: seq<Json>, k: int) {
    0 <= k < |entries| && entries[k].JNull? && forall j :: 0 <= j < k ==> !entries[j].JNull? && !IsEncounterEntry(entries[j])
  }

  /** Past a first entry that is neither `null` nor an Encounter, `find` throws where it throws on the rest. */
  lemma NullBeforeShift(entries: seq<Json>)
    requires entries != [] && !entries[0].JNull? && !IsEncounterEntry(entries[0])
    ensures forall k :: 1 <= k < |entries| ==> (NullBeforeEncounter(entries, k) <==> NullBeforeEncounter(entries[1..], k - 1))
  {
    forall k | 1 <= k < |entries|
      ensures NullBeforeEncounter(entries, k) <==> NullBeforeEncounter(entries[1..], k - 1)
    {
      assert forall j :: 1 <= j <= k ==> entries[j] == entries[1..][j - 1];
    }
  }

  /** `entry.find(...)`: the first entry holding an Encounter; a `null` entry before it throws. */
  function FindEncounter(entries: seq<Json>): (r: Result<Option<Json>, UploadError>)
    ensures r.Success? && r.value.Some? ==>
      exists k :: 0 <= k < |entries| && !entries[k].JNull? && IsEncounterEntry(entries[k]) && r.value.value == entries[k]
        && forall j :: 0 <= j < k ==> !entries[j].JNull? && !IsEncounterEntry(entries[j])
    ensures r.Success? && r.value.None? ==> forall k :: 0 <= k < |entries| ==> !entries[k].JNull? && !IsEncounterEntry(entries[k])
    ensures (forall k :: 0 <= k < |entries| ==> !entries[k].JNull? && !IsEncounterEntry(entries[k])) ==> r == Success(None)
    ensures r.Failure? <==> exists k :: NullBeforeEncounter(entries, k)
    ensures r.Failure? ==> r.error == TypeError
  {
    if entries == [] then Success(None)
    else if entries[0].JNull? then
      assert NullBeforeEncounter(entries, 0);
      Failure(TypeError)
    else if IsEncounterEntry(entries[0]) then
      assert forall k :: 0 < k < |entries| ==> !NullBeforeEncounter(entries, k);
      Success(Some(entries[0]))
    else
      var rest := FindEncounter(entries[1..]);
      NullBeforeShift(entries);
      assert !NullBeforeEncounter(entries, 0);
      if rest.Success? && rest.value.Some? then
        var k :| 0 <= k < |entries[1..]| && !entries[1..][k].JNull? && IsEncounterEntry(entries[1..][k]) && rest.value.value == entries[1..][k]
                 && forall j :: 0 <= j < k ==> !entries[1..][j].JNull? && !IsEncounterEntry(entries[1..][j]);
        assert entries[k + 1] == entries[1..][k];
        assert forall j :: 1 <= j < k + 1 ==> entries[j] == entries[1..][j - 1];
        rest
      else if rest.Failure? then
        var k :| NullBeforeEncounter(entries[1..], k);
        assert NullBeforeEncounter(entries, k + 1);
        rest
      else
        rest
  }

  /**
   * `uploadEncounter` up to the save: the validator, then an Encounter is
   * processed directly, a Bundle through its first Encounter entry, and any
   * other resource type is rejected.
   */
  function Upload(data: Json, lk: Lookups, clock: string): Result<EncounterRecord, UploadError> {
    match ValidateResource(data)
    case None => Failure(TypeError)
    case Some(false) => Failure(InvalidResource)
    case Some(true) =>
      var resourceType := data.fields["resourceType"];
      if resourceType == JString("Encounter") then EncounterRecordOf(data, lk, clock)
      else if resourceType == JString("Bundle") then
        var entry := Get(data, "entry");
        if entry.None? || entry.value.JNull? then Failure(NoEncounterInBundle)
        else if !entry.value.JArray? then Failure(TypeError)
        else
          match FindEncounter(entry.value.items)
          case Failure(e) => Failure(e)
          case Success(None) => Failure(NoEncounterInBundle)
          case Success(Some(e)) => EncounterRecordOf(e.fields["resource"], lk, clock)
      else Failure(UnsupportedType(resourceType))
  }

  /** A resource the validator accepts that is neither an Encounter nor a Bundle is rejected with its type. */
  lemma OtherTypesRejected(data: Json, lk: Lookups, clock: string)
    requires ValidateResource(data) == Some(true)
    requires data.fields["resourceType"] != JString("Encounter") && data.fields["resourceType"] != JString("Bundle")
    ensures Upload(data, lk, clock) == Failure(UnsupportedType(data.fields["resourceType"]))
  {
  }

  /**
   * A top-level Encounter passes the validator only with a truthy `id`, so its
   * record always carries that id and the `enc-` fallback is never used for it.
   */
  lemma DirectEncounterKeepsId(data: Json, lk: Lookups, clock: string)
    requires data.JObject? && "resourceType" in data.fields && data.fields["resourceType"] == JString("Encounter")
    ensures var r := Upload(data, lk, clock);
      var valid := Truthy(Get(data, "id")) && Truthy(Get(data, "status")) && Truthy(Get(data, "subject"));
      && (!valid ==> r == Failure(InvalidResource))
      && (valid ==> r == EncounterRecordOf(data, lk, clock))
      && (r.Success? ==> r.value.encounterId == data.fields["id"])
  {
  }

  /** A Bundle is processed through its first Encounter entry. */
  lemma BundleUsesFirstEncounter(data: Json, lk: Lookups, clock: string, k: nat)
    requires data.JObject? && "resourceType" in data.fields && data.fields["resourceType"] == JString("Bundle")
    requires "entry" in data.fields && data.fields["entry"].JArray?
    requires var entries := data.fields["entry"].items;
      && k < |entries| && !entries[k].JNull? && IsEncounterEntry(entries[k])
      && forall j :: 0 <= j < k ==> !entries[j].JNull? && !IsEncounterEntry(entries[j])
    ensures Upload(data, lk, clock) == EncounterRecordOf(data.fields["entry"].items[k].fields["resource"], lk, clock)
  {
    var entries := data.fields["entry"].items;
    FindEncounterFirst(entries, k);
  }

  lemma {:induction false} FindEncounterFirst(entries: seq<Json>, k: nat)
    requires k < |entries| && !entries[k].JNull? && IsEncounterEntry(entries[k])
    requires forall j :: 0 <= j < k ==> !entries[j].JNull? && !IsEncounterEntry(entries[j])
    ensures FindEncounter(entries) == Success(Some(entries[k]))
  {
    if k > 0 {
      FindEncounterFirst(entries[1..], k - 1);
    }
  }

  /** A Bundle whose entries, if any, hold no Encounter and no `null` is rejected as having no Encounter. */
  lemma BundleWithoutEncounter(data: Json, lk: Lookups, clock: string)
    requires data.JObject? && "resourceType" in data.fields && data.fields["resourceType"] == JString("Bundle")
    requires "entry" !in data.fields || data.fields["entry"] == JNull ||
      (data.fields["entry"].JArray? &&
       forall k :: 0 <= k < |data.fields["entry"].items| ==>
         !data.fields["entry"].items[k].JNull? && !IsEncounterEntry(data.fields["entry"].items[k]))
    ensures Upload(data, lk, clock) == Failure(NoEncounterInBundle)
  {
  }
}
