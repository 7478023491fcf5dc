/**
 * The request bodies the submit handler builds from the form: one campaign
 * payload per selected account, one ad-squad draft (whose campaign id is filled
 * in once the campaign exists), and the ad payload of the last stage.
 */
module Payloads {
  import opened Wrappers

  /** The text of the form's fields, as submitted. Empty optional fields are "". */
  datatype SubmittedForm = SubmittedForm(
    campaignName: string,
    campaignObjective: string,
    campaignStatus: string,
    campaignStartTime: string,
    campaignEndTime: string,
    campaignDailyBudgetMicro: string,
    campaignLifetimeSpendCapMicro: string,
    adSquadName: string,
    adSquadStatus: string,
    adSquadDailyBudgetMicro: string,
    adSquadDeliveryConstraint: string,
    adSquadStartTime: string,
    adSquadEndTime: string,
    adSquadMinAge: string,
    adSquadMaxAge: string,
    adSquadGender: string,
    adSquadOsType: string,
    adSquadConnectionType: string)

  /**
   * The form after the handler's conversions: the optional timestamps and
   * spend caps are unset when their field is empty.
   */
  datatype FormValues = FormValues(
    form: SubmittedForm,
    campaignStartTime: Option<string>,
    campaignEndTime: Option<string>,
    campaignDailyBudgetMicro: Option<int>,
    campaignLifetimeSpendCapMicro: Option<int>,
    adSquadStartTime: Option<string>,
    adSquadEndTime: Option<string>)

  datatype CampaignPayload = CampaignPayload(
    adAccountId: string,
    name: string,
    objective: string,
    status: string,
    dailyBudgetMicro: Option<int>,
    endTime: Option<string>,
    lifetimeSpendCapMicro: Option<int>,
    startTime: Option<string>)

  datatype Demographic = Demographic(gender: Option<string>, maxAge: string, minAge: string)
  datatype Device = Device(osType: string, connectionType: Option<string>)
  datatype Geo = Geo(countryCode: string)
  datatype Targeting = Targeting(demographics: seq<Demographic>, devices: seq<Device>, geos: seq<Geo>)

  datatype AdSquadPayload = AdSquadPayload(
    campaignId: string,
    name: string,
    status: string,
    startTime: Option<string>,
    endTime: Option<string>,
    squadType: string,
    bidStrategy: string,
    billingEvent: string,
    autoBid: bool,
    targetBid: bool,
    childAdType: string,
    optimizationGoal: string,
    deliveryConstraint: string,
    dailyBudgetMicro: string,
    placementConfig: string,
    targeting: Targeting)

  datatype AdPayload = AdPayload(adSquadId: string, creativeId: string, name: string, status: string, adType: string)

  /** The value a select field stands for: 'ALL' means no restriction. */
  const All := "ALL"
  const CountryCode := "us"

  /** A field that is left unset when it is empty, and converted otherwise. */
  function Optional<T>(raw: string, convert: string -> T): (r: Option<T>)
    ensures r.None? <==> raw == ""
    ensures r.Some? ==> r.value == convert(raw)
  {
    if raw == "" then None else Some(convert(raw))
  }

  /** A targeting choice: 'ALL' leaves the criterion unset, any other value is kept. */
  function UnlessAll(choice: string): (r: Option<string>)
    ensures r.None? <==> choice == All
    ensures r.Some? ==> r.value == choice
  {
    if choice == All then None else Some(choice)
  }

  /**
   * Reads the form once per submit. `toIso` stands for the timestamp
   * conversion and `toNumber` for the numeric one; neither is modelled.
   */
  function ReadForm(form: SubmittedForm, toIso: string -> string, toNumber: string -> int): (v: FormValues)
    ensures v.form == form
    ensures v.campaignStartTime == Optional(form.campaignStartTime, toIso)
    ensures v.campaignEndTime == Optional(form.campaignEndTime, toIso)
    ensures v.campaignDailyBudgetMicro == Optional(form.campaignDailyBudgetMicro, toNumber)
    ensures v.campaignLifetimeSpendCapMicro == Optional(form.campaignLifetimeSpendCapMicro, toNumber)
    ensures v.adSquadStartTime == Optional(form.adSquadStartTime, toIso)
    ensures v.adSquadEndTime == Optional(form.adSquadEndTime, toIso)
  {
    FormValues(
      form,
      Optional(form.campaignStartTime, toIso),
      Optional(form.campaignEndTime, toIso),
      Optional(form.campaignDailyBudgetMicro, toNumber),
      Optional(form.campaignLifetimeSpendCapMicro, toNumber),
      Optional(form.adSquadStartTime, toIso),
      Optional(form.adSquadEndTime, toIso))
  }

  /** The campaign payload for one account: the shared form with that account's id. */
  function CampaignPayloadFor(v: FormValues, adAccountId: string): (p: CampaignPayload)
    ensures p.adAccountId == adAccountId
    ensures p.name == v.form.campaignName && p.objective == v.form.campaignObjective
    ensures p.status == v.form.campaignStatus
    ensures p.startTime == v.campaignStartTime && p.endTime == v.campaignEndTime
    ensures p.dailyBudgetMicro == v.campaignDailyBudgetMicro
    ensures p.lifetimeSpendCapMicro == v.campaignLifetimeSpendCapMicro
  {
    CampaignPayload(
      adAccountId,
      v.form.campaignName,
      v.form.campaignObjective,
      v.form.campaignStatus,
      v.campaignDailyBudgetMicro,
      v.campaignEndTime,
      v.campaignLifetimeSpendCapMicro,
      v.campaignStartTime)
  }

  /** The targeting block: one demographics entry, one devices entry, one geo fixed to 'us'. */
  function TargetingFor(f: SubmittedForm): (t: Targeting)
    ensures |t.demographics| == 1 && |t.devices| == 1 && |t.geos| == 1
    ensures t.geos[0].countryCode == CountryCode
    ensures t.demographics[0].gender.None? <==> f.adSquadGender == All
    ensures t.demographics[0].gender.Some? ==> t.demographics[0].gender.value == f.adSquadGender
    ensures t.demographics[0].minAge == f.adSquadMinAge && t.demographics[0].maxAge == f.adSquadMaxAge
    ensures t.devices[0].osType == f.adSquadOsType
    ensures t.devices[0].connectionType.None? <==> f.adSquadConnectionType == All
    ensures t.devices[0].connectionType.Some? ==> t.devices[0].connectionType.value == f.adSquadConnectionType
  {
    Targeting(
      [Demographic(UnlessAll(f.adSquadGender), f.adSquadMaxAge, f.adSquadMinAge)],
      [Device(f.adSquadOsType, UnlessAll(f.adSquadConnectionType))],
      [Geo(CountryCode)])
  }

  /**
   * The ad-squad draft built for every account. Its campaign id is the
   * placeholder "" until the campaign has been created.
   */
  function AdSquadDraft(v: FormValues): (p: AdSquadPayload)
    ensures p.campaignId == ""
    ensures p.name == v.form.adSquadName && p.status == v.form.adSquadStatus
    ensures p.startTime == v.adSquadStartTime && p.endTime == v.adSquadEndTime
    ensures p.deliveryConstraint == v.form.adSquadDeliveryConstraint
    ensures p.dailyBudgetMicro == v.form.adSquadDailyBudgetMicro
    ensures p.squadType == "SNAP_ADS" && p.bidStrategy == "AUTO_BID" && p.billingEvent == "IMPRESSION"
    ensures p.autoBid && !p.targetBid
    ensures p.childAdType == "REMOTE_WEBPAGE" && p.optimizationGoal == "SWIPES" && p.placementConfig == "AUTOMATIC"
    ensures p.targeting == TargetingFor(v.form)
  {
    AdSquadPayload(
      "",
      v.form.adSquadName,
      v.form.adSquadStatus,
      v.adSquadStartTime,
      v.adSquadEndTime,
      "SNAP_ADS",
      "AUTO_BID",
      "IMPRESSION",
      true,
      false,
      "REMOTE_WEBPAGE",
      "SWIPES",
      v.form.adSquadDeliveryConstraint,
      v.form.adSquadDailyBudgetMicro,
      "AUTOMATIC",
      TargetingFor(v.form))
  }

  /** The draft sent to the ad-squad stage: only the campaign id is replaced. */
  function WithCampaignId(draft: AdSquadPayload, campaignId: string): (p: AdSquadPayload)
    ensures p.campaignId == campaignId
    ensures p.(campaignId := draft.campaignId) == draft
  {
    draft.(campaignId := campaignId)
  }

  /** The ad payload: the new ad squad, the creative, named after its headline, active. */
  function AdPayloadFor(adSquadId: string, creativeId: string, headline: string): (p: AdPayload)
    ensures p.adSquadId == adSquadId && p.creativeId == creativeId && p.name == headline
    ensures p.status == "ACTIVE" && p.adType == "REMOTE_WEBPAGE"
  {
    AdPayload(adSquadId, creativeId, headline, "ACTIVE", "REMOTE_WEBPAGE")
  }

  /** The campaign payloads of two accounts differ in the account id only. */
  lemma CampaignPayloadsShareForm(v: FormValues, a: string, b: string)
    ensures CampaignPayloadFor(v, a).(adAccountId := b) == CampaignPayloadFor(v, b)
  {
  }
}
