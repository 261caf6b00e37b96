/**
 * Construction of HL7 FHIR R4 resources from the stored terminology: a
 * CodeSystem for NAMASTE and one per ICD-11 module, a ConceptMap from the
 * stored mappings, a document Bundle for an encounter, and the basic resource
 * validator.  The creation timestamp is a parameter.
 */
module FhirUtils {
  import opened Wrappers
  import opened Strings
  import opened Json
  import opened Terminology

  const NamasteSystem: string := "https://namaste.ayush.gov.in/codes"
  const IcdApiBase: string := "https://icd.who.int/icdapi/"

  datatype Concept = Concept(code: string, display: string, definition: Option<string>)

  datatype CodeSystem = CodeSystem(
    id: string, url: string, version: string, name: string, title: string, status: string,
    experimental: bool, date: string, publisher: string, description: string, content: string,
    concept: seq<Concept>)

  datatype Target = Target(code: string, display: string, equivalence: Equivalence, confidence: real)
  datatype Element = Element(code: string, target: seq<Target>)
  datatype Group = Group(source: string, target: string, element: seq<Element>)

  datatype ConceptMap = ConceptMap(
    id: string, url: string, version: string, name: string, title: string, status: string,
    experimental: bool, date: string, publisher: string, description: string,
    sourceCanonical: string, targetCanonical: string, group: seq<Group>)

  datatype Bundle = Bundle(id: string, bundleType: string, entry: seq<Json>)

  /** A stored encounter: its identifier and its FHIR Encounter rendering. */
  datatype StoredEncounter = StoredEncounter(encounterId: string, fhirEncounter: Json)

  // ---------------------------------------------------------------------------
  // CodeSystems

  function NamasteConcept(c: NamasteCode): Concept {
    Concept(c.code, c.name, Some(c.description))
  }

  function IcdConcept(c: IcdCode): Concept {
    Concept(c.code, c.title, c.description)
  }

  /** `generateNAMASTECodeSystem` */
  function NamasteCodeSystem(codes: seq<NamasteCode>, date: string): (cs: CodeSystem)
    ensures |cs.concept| == |codes|
    ensures forall k :: 0 <= k < |codes| ==>
      cs.concept[k].code == codes[k].code && cs.concept[k].display == codes[k].name &&
      cs.concept[k].definition == Some(codes[k].description)
    ensures cs.id == "namaste-codes" && cs.url == NamasteSystem && cs.content == "complete" && cs.date == date
  {
    CodeSystem(
      "namaste-codes", NamasteSystem, "1.0.0", "NAMASTE-CodeSystem",
      "National AYUSH Morbidity & Standardized Terminologies Electronic", "active", false, date,
      "Ministry of AYUSH, Government of India",
      "Standardized terminologies for Ayurveda, Siddha and Unani disorders", "complete",
      seq(|codes|, k requires 0 <= k < |codes| => NamasteConcept(codes[k])))
  }

  function TypeLabel(t: IcdType): string {
    match t
    case TM2 => "Traditional Medicine Module 2"
    case Biomedicine => "Biomedicine"
  }

  /** `generateICDCodeSystem` */
  function IcdCodeSystem(codes: seq<IcdCode>, t: IcdType, date: string): (cs: CodeSystem)
    ensures |cs.concept| == |codes|
    ensures forall k :: 0 <= k < |codes| ==>
      cs.concept[k].code == codes[k].code && cs.concept[k].display == codes[k].title &&
      cs.concept[k].definition == codes[k].description
    ensures cs.id == "icd-11-" + ToLower(IcdTypeName(t)) && cs.url == IcdApiBase + IcdTypeName(t)
    ensures cs.date == date
  {
    var name := IcdTypeName(t);
    CodeSystem(
      "icd-11-" + ToLower(name), IcdApiBase + name, "11.0", "ICD-11-" + name,
      "ICD-11 " + TypeLabel(t), "active", false, date, "World Health Organization",
      "ICD-11 " + TypeLabel(t) + " codes for traditional medicine and biomedicine", "complete",
      seq(|codes|, k requires 0 <= k < |codes| => IcdConcept(codes[k])))
  }

  /** The two ICD CodeSystems are `icd-11-tm2` and `icd-11-biomedicine`. */
  lemma IcdCodeSystemIds(codes: seq<IcdCode>, date: string)
    ensures IcdCodeSystem(codes, TM2, date).id == "icd-11-tm2"
    ensures IcdCodeSystem(codes, Biomedicine, date).id == "icd-11-biomedicine"
    ensures IcdCodeSystem(codes, TM2, date).url == "https://icd.who.int/icdapi/TM2"
    ensures IcdCodeSystem(codes, Biomedicine, date).url == "https://icd.who.int/icdapi/Biomedicine"
  {
    LowerTypeNames();
  }

  lemma LowerTypeNames()
    ensures ToLower("TM2") == "tm2" && ToLower("Biomedicine") == "biomedicine"
  {
    var a := ToLower("TM2");
    assert a[0] == 't' && a[1] == 'm' && a[2] == '2';
    var b := ToLower("Biomedicine");
    assert b[0] == 'b' && b[1] == 'i' && b[2] == 'o' && b[3] == 'm' && b[4] == 'e' && b[5] == 'd';
    assert b[6] == 'i' && b[7] == 'c' && b[8] == 'i' && b[9] == 'n' && b[10] == 'e';
  }

  // ---------------------------------------------------------------------------
  // ConceptMap

  /** The NAMASTE codes of the mappings, each once, in order of first occurrence. */
  function DistinctCodes(ms: seq<Mapping>): (codes: seq<string>)
    ensures forall i, j :: 0 <= i < j < |codes| ==> codes[i] != codes[j]
    ensures forall c :: c in codes <==> exists m :: m in ms && m.namasteCode == c
  {
    if ms == [] then []
    else
      var init, last := ms[..|ms| - 1], ms[|ms| - 1];
      assert ms == init + [last];
      var codes := DistinctCodes(init);
      if last.namasteCode in codes then codes else codes + [last.namasteCode]
  }

  /** The mappings grouped under `code`, in input order. */
  function ForCode(ms: seq<Mapping>, code: string): seq<Mapping> {
    if ms == [] then []
    else
      var init, last := ms[..|ms| - 1], ms[|ms| - 1];
      ForCode(init, code) + (if last.namasteCode == code then [last] else [])
  }

  function TargetOf(m: Mapping): Target {
    Target(m.icdCode, m.icdCode, m.equivalence, m.confidence)
  }

  /** The targets of the mappings of ICD type `t`, in input order. */
  function TargetsOfType(ms: seq<Mapping>, t: IcdType): seq<Target> {
    if ms == [] then []
    else
      var init, last := ms[..|ms| - 1], ms[|ms| - 1];
      TargetsOfType(init, t) + (if last.icdType == t then [TargetOf(last)] else [])
  }

  function ElementFor(ms: seq<Mapping>, code: string, t: IcdType): Element {
    Element(code, TargetsOfType(ForCode(ms, code), t))
  }

  function GroupFor(ms: seq<Mapping>, t: IcdType): Group {
    var codes := DistinctCodes(ms);
    Group(NamasteSystem, IcdApiBase + IcdTypeName(t),
          seq(|codes|, k requires 0 <= k < |codes| => ElementFor(ms, codes[k], t)))
  }

  /** `generateConceptMap` */
  function GenerateConceptMap(ms: seq<Mapping>, date: string): (cm: ConceptMap)
    ensures cm.id == "namaste-icd-mapping" && cm.url == "https://namaste.ayush.gov.in/conceptmap" && cm.date == date
    ensures cm.group == [GroupFor(ms, TM2), GroupFor(ms, Biomedicine)]
  {
    ConceptMap(
      "namaste-icd-mapping", "https://namaste.ayush.gov.in/conceptmap", "1.0.0", "NAMASTE-ICD-ConceptMap",
      "NAMASTE to ICD-11 Concept Mapping", "active", false, date, "Ministry of AYUSH, Government of India",
      "Concept mapping between NAMASTE codes and ICD-11 (TM2 + Biomedicine)", NamasteSystem, IcdApiBase,
      [GroupFor(ms, TM2), GroupFor(ms, Biomedicine)])
  }

  /** The targets a NAMASTE code has in the group of ICD type `t`, selected directly from the mappings. */
  function Selected(ms: seq<Mapping>, code: string, t: IcdType): seq<Target> {
    if ms == [] then []
    else
      var init, last := ms[..|ms| - 1], ms[|ms| - 1];
      Selected(init, code, t) + (if last.namasteCode == code && last.icdType == t then [TargetOf(last)] else [])
  }

  /** Grouping by NAMASTE code and then filtering by ICD type selects what filtering by both does. */
  lemma {:induction false} GroupThenFilter(ms: seq<Mapping>, code: string, t: IcdType)
    ensures TargetsOfType(ForCode(ms, code), t) == Selected(ms, code, t)
  {
    if ms != [] {
      var init, last := ms[..|ms| - 1], ms[|ms| - 1];
      GroupThenFilter(init, code, t);
      TargetsOfTypeAppend(ForCode(init, code), if last.namasteCode == code then [last] else [], t);
    }
  }

  lemma {:induction false} TargetsOfTypeAppend(a: seq<Mapping>, b: seq<Mapping>, t: IcdType)
    ensures TargetsOfType(a + b, t) == TargetsOfType(a, t) + TargetsOfType(b, t)
  {
    if b != [] {
      var init, last := b[..|b| - 1], b[|b| - 1];
      assert (a + b)[..|a + b| - 1] == a + init;
      assert (a + b)[|a + b| - 1] == last;
      TargetsOfTypeAppend(a, init, t);
      var x := if last.icdType == t then [TargetOf(last)] else [];
      calc {
        TargetsOfType(a + b, t);
        TargetsOfType(a + init, t) + x;
        (TargetsOfType(a, t) + TargetsOfType(init, t)) + x;
        TargetsOfType(a, t) + (TargetsOfType(init, t) + x);
        TargetsOfType(a, t) + TargetsOfType(b, t);
      }
    } else {
      assert a + b == a;
    }
  }

  /** A mapping is selected for its own code and type. */
  lemma {:induction false} SelectedContains(ms: seq<Mapping>, m: Mapping)
    requires m in ms
    ensures TargetOf(m) in Selected(ms, m.namasteCode, m.icdType)
  {
    var init, last := ms[..|ms| - 1], ms[|ms| - 1];
    assert ms == init + [last];
    if m != last {
      SelectedContains(init, m);
    }
  }

  /**
   * The ConceptMap has two groups, TM2 then Biomedicine, from the NAMASTE
   * system to the matching ICD API system.  Each group has one element per
   * distinct NAMASTE code in order of first occurrence (also with no targets),
   * and an element's targets are that code's mappings of the group's type, in
   * input order, with code and display the ICD code.
   */
  lemma ConceptMapStructure(ms: seq<Mapping>, date: string)
    ensures var cm := GenerateConceptMap(ms, date);
      && |cm.group| == 2
      && cm.group[0].target == IcdApiBase + "TM2" && cm.group[1].target == IcdApiBase + "Biomedicine"
      && (forall g :: g in cm.group ==> g.source == NamasteSystem)
      && (forall g :: g in cm.group ==> |g.element| == |DistinctCodes(ms)|)
      && (forall g, k :: g in cm.group && 0 <= k < |g.element| ==> g.element[k].code == DistinctCodes(ms)[k])
      && (forall k :: 0 <= k < |cm.group[0].element| ==>
            cm.group[0].element[k].target == Selected(ms, DistinctCodes(ms)[k], TM2))
      && (forall k :: 0 <= k < |cm.group[1].element| ==>
            cm.group[1].element[k].target == Selected(ms, DistinctCodes(ms)[k], Biomedicine))
  {
    var codes := DistinctCodes(ms);
    forall k | 0 <= k < |codes|
      ensures TargetsOfType(ForCode(ms, codes[k]), TM2) == Selected(ms, codes[k], TM2)
      ensures TargetsOfType(ForCode(ms, codes[k]), Biomedicine) == Selected(ms, codes[k], Biomedicine)
    {
      GroupThenFilter(ms, codes[k], TM2);
      GroupThenFilter(ms, codes[k], Biomedicine);
    }
  }

  /** No mapping is lost: each one is a target of its code's element in the group of its type. */
  lemma ConceptMapCoversMappings(ms: seq<Mapping>, date: string, m: Mapping)
    requires m in ms
    ensures var g := GenerateConceptMap(ms, date).group[if m.icdType == TM2 then 0 else 1];
      exists k :: 0 <= k < |g.element| && g.element[k].code == m.namasteCode && TargetOf(m) in g.element[k].target
  {
    var codes := DistinctCodes(ms);
    assert m.namasteCode in codes;
    var k :| 0 <= k < |codes| && codes[k] == m.namasteCode;
    GroupThenFilter(ms, m.namasteCode, m.icdType);
    SelectedContains(ms, m);
    var g := GroupFor(ms, m.icdType);
    assert g == GenerateConceptMap(ms, date).group[if m.icdType == TM2 then 0 else 1];
    assert g.element[k] == ElementFor(ms, codes[k], m.icdType);
    assert TargetOf(m) in g.element[k].target;
  }

  // ---------------------------------------------------------------------------
  // Bundle

  /** `generateEncounterBundle` */
  function EncounterBundle(e: StoredEncounter): (b: Bundle)
    ensures b.id == "encounter-" + e.encounterId && b.bundleType == "document" && b.entry == [e.fhirEncounter]
  {
    Bundle("encounter-" + e.encounterId, "document", [e.fhirEncounter])
  }

  // ---------------------------------------------------------------------------
  // Validation

  /**
   * `validateFHIRResource`: `None` when reading `resourceType` throws (a null
   * resource), otherwise whether the type's required properties are truthy.
   */
  function ValidateResource(resource: Json): (ok: Option<bool>)
    ensures ok.None? <==> resource.JNull?
    ensures ok.Some? && !Truthy(Get(resource, "resourceType")) ==> ok == Some(false)
  {
    if resource.JNull? then None
    else if !Truthy(Get(resource, "resourceType")) then Some(false)
    else
      match resource.fields["resourceType"]
      case JString("CodeSystem") => Some(Truthy(Get(resource, "id")) && Truthy(Get(resource, "url")) && Truthy(Get(resource, "concept")))
      case JString("ConceptMap") => Some(Truthy(Get(resource, "id")) && Truthy(Get(resource, "url")) && Truthy(Get(resource, "group")))
      case JString("Encounter") => Some(Truthy(Get(resource, "id")) && Truthy(Get(resource, "status")) && Truthy(Get(resource, "subject")))
      case _ => Some(true)
  }

  /** The properties a resource type must have; no requirement for other types. */
  function RequiredFor(resourceType: Json): seq<string> {
    if resourceType == JString("CodeSystem") then ["id", "url", "concept"]
    else if resourceType == JString("ConceptMap") then ["id", "url", "group"]
    else if resourceType == JString("Encounter") then ["id", "status", "subject"]
    else []
  }

  predicate RequiredPresent(resource: Json, keys: seq<string>) {
    forall k :: 0 <= k < |keys| ==> Truthy(Get(resource, keys[k]))
  }

  /**
   * A resource with a truthy `resourceType` is valid exactly when every
   * property its type requires is truthy.
   */
  lemma ValidateChecksRequired(resource: Json)
    requires Truthy(Get(resource, "resourceType"))
    ensures ValidateResource(resource) == Some(RequiredPresent(resource, RequiredFor(resource.fields["resourceType"])))
  {
    ThreeRequired(resource, "id", "url", "concept");
    ThreeRequired(resource, "id", "url", "group");
    ThreeRequired(resource, "id", "status", "subject");
  }

  lemma ThreeRequired(resource: Json, a: string, b: string, c: string)
    ensures RequiredPresent(resource, [a, b, c]) <==>
      Truthy(Get(resource, a)) && Truthy(Get(resource, b)) && Truthy(Get(resource, c))
  {
    var keys := [a, b, c];
    assert keys[0] == a && keys[1] == b && keys[2] == c;
  }

  // JSON renderings of the generated resources.

  function OptionalString(s: Option<string>): map<string, Json> {
    if s.Some? then map["definition" := JString(s.value)] else map[]
  }

  function ConceptJson(c: Concept): Json {
    JObject(map["code" := JString(c.code), "display" := JString(c.display)] + OptionalString(c.definition))
  }

  function CodeSystemJson(cs: CodeSystem): Json {
    JObject(map[
      "resourceType" := JString("CodeSystem"), "id" := JString(cs.id), "url" := JString(cs.url),
      "version" := JString(cs.version), "name" := JString(cs.name), "title" := JString(cs.title),
      "status" := JString(cs.status), "experimental" := JBool(cs.experimental), "date" := JString(cs.date),
      "publisher" := JString(cs.publisher), "description" := JString(cs.description),
      "content" := JString(cs.content),
      "concept" := JArray(seq(|cs.concept|, k requires 0 <= k < |cs.concept| => ConceptJson(cs.concept[k])))])
  }

  function TargetJson(t: Target): Json {
    JObject(map["code" := JString(t.code), "display" := JString(t.display),
                "equivalence" := JString(EquivalenceCode(t.equivalence)), "confidence" := JNumber(t.confidence)])
  }

  function ElementJson(e: Element): Json {
    JObject(map["code" := JString(e.code),
                "target" := JArray(seq(|e.target|, k requires 0 <= k < |e.target| => TargetJson(e.target[k])))])
  }

  function GroupJson(g: Group): Json {
    JObject(map["source" := JString(g.source), "target" := JString(g.target),
                "element" := JArray(seq(|g.element|, k requires 0 <= k < |g.element| => ElementJson(g.element[k])))])
  }

  function ConceptMapJson(cm: ConceptMap): Json {
    JObject(map[
      "resourceType" := JString("ConceptMap"), "id" := JString(cm.id), "url" := JString(cm.url),
      "version" := JString(cm.version), "name" := JString(cm.name), "title" := JString(cm.title),
      "status" := JString(cm.status), "experimental" := JBool(cm.experimental), "date" := JString(cm.date),
      "publisher" := JString(cm.publisher), "description" := JString(cm.description),
      "sourceCanonical" := JString(cm.sourceCanonical), "targetCanonical" := JString(cm.targetCanonical),
      "group" := JArray(seq(|cm.group|, k requires 0 <= k < |cm.group| => GroupJson(cm.group[k])))])
  }

  function EquivalenceCode(e: Equivalence): string {
    match e
    case RelatedTo => "relatedto"
    case Equivalent => "equivalent"
    case Equal => "equal"
    case Wider => "wider"
    case Subsumes => "subsumes"
    case Narrower => "narrower"
    case Specializes => "specializes"
    case Inexact => "inexact"
    case Unmatched => "unmatched"
    case Disjoint => "disjoint"
  }

  /** A resource rendered with a truthy `id`, `url` and `concept` passes as a CodeSystem. */
  lemma CodeSystemValidates(cs: CodeSystem)
    requires cs.id != "" && cs.url != ""
    ensures ValidateResource(CodeSystemJson(cs)) == Some(true)
  {
    var j := CodeSystemJson(cs);
    assert j.fields["resourceType"] == JString("CodeSystem");
    assert Truthy(Get(j, "id")) && Truthy(Get(j, "url")) && Truthy(Get(j, "concept"));
  }

  /** The generated CodeSystems pass the validator, whatever the codes and the date. */
  lemma GeneratedCodeSystemsValidate(namastes: seq<NamasteCode>, icds: seq<IcdCode>, t: IcdType, date: string)
    ensures ValidateResource(CodeSystemJson(NamasteCodeSystem(namastes, date))) == Some(true)
    ensures ValidateResource(CodeSystemJson(IcdCodeSystem(icds, t, date))) == Some(true)
  {
    CodeSystemValidates(NamasteCodeSystem(namastes, date));
    var cs := IcdCodeSystem(icds, t, date);
    assert cs.id[0] == 'i';
    CodeSystemValidates(cs);
  }

  /** The generated ConceptMap passes the validator, whatever the mappings and the date. */
  lemma GeneratedConceptMapValidates(ms: seq<Mapping>, date: string)
    ensures ValidateResource(ConceptMapJson(GenerateConceptMap(ms, date))) == Some(true)
  {
    var j := ConceptMapJson(GenerateConceptMap(ms, date));
    assert j.fields["resourceType"] == JString("ConceptMap");
    assert Truthy(Get(j, "id")) && Truthy(Get(j, "url")) && Truthy(Get(j, "group"));
  }
}
