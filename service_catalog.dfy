/**
 * The static catalog of service categories and their sub-services, and the
 * two lookups the detail pages use. Both lookups are first-match searches
 * over the fixed ordered list and return an explicit absence.
 */
module ServiceCatalog {
  import opened Wrappers

  /** The icon component a record refers to. */
  datatype Icon = TestTube | Heart | Stethoscope | Activity | Syringe | Droplets | Cross | Shield | Zap

  datatype SubService = SubService(
    id: string,
    name: string,
    description: string,
    price: string,
    duration: Option<string>,
    icon: Icon)

  datatype Service = Service(
    id: string,
    name: string,
    description: string,
    icon: Icon,
    subServices: seq<SubService>)

  /** Index `i` holds the first element of `xs` that satisfies `p`. */
  predicate IsFirstMatch<T>(xs: seq<T>, p: T -> bool, i: int) {
    0 <= i < |xs| && p(xs[i]) && forall j :: 0 <= j < i ==> !p(xs[j])
  }

  /** `Array.prototype.find`: the first element satisfying `p`, or absence when there is none. */
  function Find<T>(xs: seq<T>, p: T -> bool): (r: Option<T>)
    ensures r.None? <==> forall i :: 0 <= i < |xs| ==> !p(xs[i])
    ensures r.Some? ==> exists i :: IsFirstMatch(xs, p, i) && xs[i] == r.value
  {
    if xs == [] then None
    else if p(xs[0]) then
      assert IsFirstMatch(xs, p, 0);
      Some(xs[0])
    else
      assert forall i :: IsFirstMatch(xs[1..], p, i) ==> IsFirstMatch(xs, p, i + 1) && xs[1..][i] == xs[i + 1];
      Find(xs[1..], p)
  }

  // ----- `servicesData`, one constant per record (the `icon` references become `Icon` values) -----

  const SampleCollection: SubService := SubService("sample-collection", "Sample Collection",
    "Professional sample collection service with sterile equipment and proper handling procedures.",
    "NO Charge", Some("15-30 mins"), TestTube)
  const BloodTest: SubService := SubService("blood-test", "Blood Test",
    "Comprehensive blood analysis including CBC, lipid profile, liver function, and more.",
    "As Per Blood Test", Some("10-15 mins"), Droplets)
  const UrineTest: SubService := SubService("urine-test", "Urine Test",
    "Complete urine analysis for kidney function, infections, and metabolic disorders.",
    "As Per Urine Test", Some("5-10 mins"), TestTube)
  const StoolTest: SubService := SubService("stool-test", "Stool Test",
    "Stool examination for digestive health, infections, and parasites.",
    "As Per Stool Test", Some("5-10 mins"), TestTube)
  const Biopsy: SubService := SubService("biopsy", "Biopsy",
    "Tissue sample collection for detailed pathological examination.",
    "As Per Test", Some("30-60 mins"), Syringe)
  const LabOthers: SubService := SubService("lab-others", "Other Lab Tests",
    "Additional laboratory tests including cultures, genetic tests, and specialized diagnostics.",
    "Contact for pricing", Some("Varies"), TestTube)

  const LabService: Service := Service("lab-service", "Laboratory Services",
    "Complete laboratory testing services at your doorstep",
    TestTube,
    [SampleCollection, BloodTest, UrineTest, StoolTest, Biopsy, LabOthers])

  const BloodPressure: SubService := SubService("blood-pressure", "Blood Pressure Measurement",
    "Regular blood pressure monitoring with digital equipment and professional assessment.",
    "\U{20B9}50", Some("10-15 mins"), Activity)
  const CbgAnalysis: SubService := SubService("cbg-analysis", "CBG Analysis",
    "Capillary blood glucose testing for diabetes monitoring and management.",
    "\U{20B9}100", Some("5-10 mins"), TestTube)
  const Dressing: SubService := SubService("dressing", "Wound Dressing",
    "Professional wound care, dressing changes, and healing assessment.",
    "\U{20B9}400 onwards", Some("20-45 mins"), Cross)
  const VitalCheckup: SubService := SubService("vital-checkup", "Vital Signs Checkup",
    "Complete vital signs monitoring including temperature, pulse, respiration, and BP.",
    "\U{20B9}100", Some("15-20 mins"), Stethoscope)
  const CriticalMonitoring: SubService := SubService("critical-monitoring", "Critical ill Patient Monitoring",
    "24/7 monitoring for critically ill patients with specialized equipment and trained staff.",
    "\U{20B9}2000 - \U{20B9}5000/day", Some("Continuous"), Activity)
  const SupportiveCare: SubService := SubService("supportive-care", "Supportive Care",
    "Comprehensive supportive care including medication administration and patient comfort.",
    "\U{20B9}1000 - \U{20B9}1500/day", Some("As required"), Heart)

  const HomeCare: Service := Service("home-care", "Home Care Services",
    "Professional healthcare services in the comfort of your home",
    Heart,
    [BloodPressure, CbgAnalysis, Dressing, VitalCheckup, CriticalMonitoring, SupportiveCare])

  const IvCannulation: SubService := SubService("iv-cannulation", "IV Cannulation",
    "Expert IV line insertion for medication administration and fluid therapy.",
    "\U{20B9}200", Some("10-20 mins"), Syringe)
  const Injections: SubService := SubService("injections", "IV/IM Injections",
    "Safe administration of intravenous and intramuscular injections.",
    "\U{20B9}100 - \U{20B9}400", Some("5-15 mins"), Syringe)
  const NgTube: SubService := SubService("ng-tube", "NG Tube Insertion",
    "Nasogastric tube insertion for feeding or gastric decompression.",
    "\U{20B9}500 - \U{20B9}800", Some("15-30 mins"), Stethoscope)
  const Catheterization: SubService := SubService("catheterization", "Urinary Catheterization",
    "Sterile urinary catheter insertion and management.",
    "\U{20B9}500 - \U{20B9}800", Some("15-25 mins"), Droplets)
  const ProcedureOthers: SubService := SubService("procedure-others", "Other Procedures",
    "Additional medical procedures including wound suturing, minor surgeries.",
    "Contact for pricing", Some("Varies"), Syringe)

  const Procedures: Service := Service("procedures", "Medical Procedures Services",
    "Professional medical procedures performed by certified healthcare providers",
    Syringe,
    [IvCannulation, Injections, NgTube, Catheterization, ProcedureOthers])

  const EmergencyMedical: SubService := SubService("emergency-medical", "Emergency Medical Care",
    "Immediate medical response for emergency situations and acute conditions.",
    "\U{20B9}1000 - \U{20B9}3000", Some("As required"), Shield)
  const OxygenTherapy: SubService := SubService("oxygen-therapy", "Oxygen Therapy",
    "Oxygen administration for respiratory support and recovery.",
    "\U{20B9}500 - \U{20B9}1200/day", Some("Continuous"), Zap)
  const FluidTherapy: SubService := SubService("fluid-therapy", "Fluid Therapy",
    "IV fluid administration for dehydration, electrolyte balance, and recovery.",
    "\U{20B9}400 - \U{20B9}800", Some("1-4 hours"), Droplets)
  const EmergencyOthers: SubService := SubService("emergency-others", "Other Emergency Services",
    "Additional emergency services including first aid, CPR, and medical transport.",
    "Contact for pricing", Some("As required"), Shield)

  const Emergency: Service := Service("emergency", "Emergency & Others Services",
    "Emergency medical services and specialized therapies",
    Shield,
    [EmergencyMedical, OxygenTherapy, FluidTherapy, EmergencyOthers])

  /** `servicesData`: the four categories in the order the site lists them. */
  const ServicesData: seq<Service> := [LabService, HomeCare, Procedures, Emergency]

  /** `getAllServices`: the catalog itself, four categories in this order. */
  function GetAllServices(): (r: seq<Service>)
    ensures r == ServicesData
    ensures |r| == 4
    ensures r[0].id == "lab-service" && r[1].id == "home-care"
    ensures r[2].id == "procedures" && r[3].id == "emergency"
  {
    ServicesData
  }

  /**
   * `getServiceById`: present exactly when some category has `id`, and then
   * it is the first such category in list order.
   */
  function GetServiceById(id: string): (r: Option<Service>)
    ensures r.Some? <==> exists i :: 0 <= i < |ServicesData| && ServicesData[i].id == id
    ensures r.Some? ==> r.value.id == id
    ensures r.Some? ==> exists i :: (0 <= i < |ServicesData| && ServicesData[i] == r.value &&
      forall j :: 0 <= j < i ==> ServicesData[j].id != id)
  {
    Find(ServicesData, (s: Service) => s.id == id)
  }

  /** The sub-service lookup within one category: `subServices.find(...)`. */
  function FindSubService(service: Service, subServiceId: string): (r: Option<SubService>)
    ensures r.Some? <==> exists k :: 0 <= k < |service.subServices| && service.subServices[k].id == subServiceId
    ensures r.Some? ==> r.value.id == subServiceId
    ensures r.Some? ==> exists k :: (0 <= k < |service.subServices| && service.subServices[k] == r.value &&
      forall j :: 0 <= j < k ==> service.subServices[j].id != subServiceId)
  {
    Find(service.subServices, (sub: SubService) => sub.id == subServiceId)
  }

  /**
   * `getSubServiceById`: absent when the category is; otherwise a sub-service
   * of that category carrying `subServiceId`, present whenever one exists.
   */
  function GetSubServiceById(serviceId: string, subServiceId: string): (r: Option<SubService>)
    ensures GetServiceById(serviceId).None? ==> r.None?
    ensures r.Some? ==> (GetServiceById(serviceId).Some? && r.value.id == subServiceId &&
      r.value in GetServiceById(serviceId).value.subServices)
    ensures GetServiceById(serviceId).Some? ==>
      (r.Some? <==> exists k :: (0 <= k < |GetServiceById(serviceId).value.subServices| &&
        GetServiceById(serviceId).value.subServices[k].id == subServiceId))
  {
    match GetServiceById(serviceId)
    case None => None
    case Some(service) => FindSubService(service, subServiceId)
  }

  // ----- Properties of the catalog -----

  predicate DistinctServiceIds(services: seq<Service>) {
    forall i, j :: 0 <= i < j < |services| ==> services[i].id != services[j].id
  }

  predicate DistinctSubServiceIds(service: Service) {
    forall i, j :: 0 <= i < j < |service.subServices| ==>
      service.subServices[i].id != service.subServices[j].id
  }

  /** No two categories share an id, and no two sub-services of one category do. */
  lemma CatalogIdsDistinct()
    ensures DistinctServiceIds(ServicesData)
    ensures forall i :: 0 <= i < |ServicesData| ==> DistinctSubServiceIds(ServicesData[i])
  {
  }

  /** Every category is found by its own id, so the lookup is unambiguous. */
  lemma ServiceLookupUnambiguous(i: nat)
    requires i < |ServicesData|
    ensures GetServiceById(ServicesData[i].id) == Some(ServicesData[i])
  {
    CatalogIdsDistinct();
  }

  /** Every sub-service is found by its category's id and its own id. */
  lemma SubServiceLookupUnambiguous(i: nat, k: nat)
    requires i < |ServicesData| && k < |ServicesData[i].subServices|
    ensures GetSubServiceById(ServicesData[i].id, ServicesData[i].subServices[k].id)
      == Some(ServicesData[i].subServices[k])
  {
    CatalogIdsDistinct();
    ServiceLookupUnambiguous(i);
  }

  /** The Laboratory Services category has exactly six sub-services. */
  lemma LabServiceHasSixSubServices()
    ensures GetServiceById("lab-service").Some?
    ensures GetServiceById("lab-service").value.name == "Laboratory Services"
    ensures |GetServiceById("lab-service").value.subServices| == 6
  {
    ServiceLookupUnambiguous(0);
  }

  /** CBG Analysis under Home Care Services is priced at 100 rupees. */
  lemma CbgAnalysisPrice()
    ensures GetSubServiceById("home-care", "cbg-analysis").Some?
    ensures GetSubServiceById("home-care", "cbg-analysis").value.price == "\U{20B9}100"
  {
    SubServiceLookupUnambiguous(1, 1);
  }

  /** Any id no category carries gives the explicit absence, for either lookup. */
  lemma UnknownServiceAbsent(id: string, subId: string)
    requires forall i :: 0 <= i < |ServicesData| ==> ServicesData[i].id != id
    ensures GetServiceById(id).None?
    ensures GetSubServiceById(id, subId).None?
  {
  }

  /** For instance, "not-real" is no category id. */
  lemma NotRealServiceAbsent()
    ensures GetServiceById("not-real").None?
    ensures GetSubServiceById("not-real", "cbg-analysis").None?
  {
    assert forall i :: 0 <= i < |ServicesData| ==> ServicesData[i].id != "not-real";
    UnknownServiceAbsent("not-real", "cbg-analysis");
  }

  /** In any category, an id none of its sub-services carries gives the explicit absence. */
  lemma UnknownSubServiceAbsent(i: nat, subId: string)
    requires i < |ServicesData|
    requires forall k :: 0 <= k < |ServicesData[i].subServices| ==> ServicesData[i].subServices[k].id != subId
    ensures GetSubServiceById(ServicesData[i].id, subId).None?
  {
    ServiceLookupUnambiguous(i);
  }

  /** For instance, "not-real" is no sub-service of "home-care". */
  lemma NotRealSubServiceAbsent()
    ensures GetSubServiceById("home-care", "not-real").None?
  {
    var subs := ServicesData[1].subServices;
    assert |subs| == 6;
    assert forall k :: 0 <= k < |subs| ==> subs[k].id != "not-real";
    UnknownSubServiceAbsent(1, "not-real");
  }
}
