/**
 * The per-account creation chain: create campaign, create ad squad, fetch the
 * account's creatives, create ad. The server's answers are inputs (`Replies`);
 * each stage is a function returning the requests it sends and the status
 * updates it makes (`Effects`), in order, including those of the stages it
 * goes on to.
 */
module Pipeline {
  import opened Wrappers
  import opened AccountTable
  import opened Payloads

  datatype Campaign = Campaign(id: string)
  datatype AdSquad = AdSquad(id: string)
  datatype Creative = Creative(id: string, adAccountId: string, headline: string)
  datatype Ad = Ad(id: string)

  /**
   * One element of a batch response: the entity the server created or found,
   * if any, and the reason it gives for failing the sub-request, if any.
   * Missing ids are written "".
   */
  datatype Entry<T> = Entry(entity: Option<T>, reason: Option<string>)

  /** What the server answers to the four requests of one account's chain. */
  datatype Replies = Replies(
    campaigns: seq<Entry<Campaign>>,
    adSquads: seq<Entry<AdSquad>>,
    creatives: seq<Entry<Creative>>,
    ads: seq<Entry<Ad>>)

  datatype Request =
    | CreateCampaignRequest(campaign: CampaignPayload)
    | CreateAdSquadRequest(adSquad: AdSquadPayload)
    | GetCreativesRequest(adAccountId: string)
    | CreateAdRequest(ad: AdPayload)

  /** The requests sent and the status updates made, each in order. */
  datatype Effects = Effects(requests: seq<Request>, writes: seq<StatusWrite>)

  const CreatingCampaign := "Creating new campaign..."
  const CreateCampaignFailed := "Create campaign failed"
  const CreatingAdSquad := "Creating new adSquad..."
  const CreateAdSquadFailed := "Create adSquad failed"
  const GettingCreatives := "Getting creatives..."
  const NoCreativeToCreateAds := "No creative to create ads"
  const CreatingAds := "Creating new ads..."
  const Done := "Done"

  function Then(first: Effects, next: Effects): Effects
  {
    Effects(first.requests + next.requests, first.writes + next.writes)
  }

  /** The entity of the first element of a response; the rest is never read. */
  function Created<T>(response: seq<Entry<T>>): (r: Option<T>)
    ensures r.Some? ==> |response| > 0 && response[0].entity == r
    ensures |response| > 0 ==> r == response[0].entity
  {
    if |response| == 0 then None else response[0].entity
  }

  /**
   * The red message of a failed stage: the first element's reason when it is
   * present and non-empty, the stage's fallback text otherwise.
   */
  function FailureMessage<T>(response: seq<Entry<T>>, fallback: string): (m: string)
    ensures |response| > 0 && response[0].reason.Some? && response[0].reason.value != "" ==>
              m == response[0].reason.value
    ensures |response| == 0 || response[0].reason.None? || response[0].reason == Some("") ==>
              m == fallback
  {
    if |response| > 0 && response[0].reason.Some? && response[0].reason.value != ""
    then response[0].reason.value
    else fallback
  }

  /** The new campaign's id, when the first element carries a non-empty one. */
  function CreatedCampaignId(response: seq<Entry<Campaign>>): (r: Option<string>)
    ensures r.Some? <==> Created(response).Some? && Created(response).value.id != ""
    ensures r.Some? ==> r.value == Created(response).value.id
  {
    match Created(response)
    case Some(c) => if c.id != "" then Some(c.id) else None
    case None => None
  }

  /** The account named by the first creative of the reply, if there is one. */
  function CreativeAccount(replies: Replies): Option<string>
  {
    match Created(replies.creatives)
    case Some(c) => Some(c.adAccountId)
    case None => None
  }

  // ---------------------------------------------------------------------------
  // The four stages, each nesting the next as the page's handlers do.
  // ---------------------------------------------------------------------------

  /** Create the ad; both of its status updates are aimed at the creative's account. */
  function AdStage(adSquadId: string, creative: Creative, replies: Replies): Effects
  {
    var target := creative.adAccountId;
    var outcome :=
      if Created(replies.ads).Some? then StatusWrite(target, Neutral, Done)
      else StatusWrite(target, Error, FailureMessage(replies.ads, CreateCampaignFailed));
    Effects([CreateAdRequest(AdPayloadFor(adSquadId, creative.id, creative.headline))],
            [StatusWrite(target, Pending, CreatingAds), outcome])
  }

  /** Fetch the account's creatives and go on with the first one. */
  function CreativesStage(adAccountId: string, adSquadId: string, replies: Replies): Effects
  {
    var start := Effects([GetCreativesRequest(adAccountId)], [StatusWrite(adAccountId, Pending, GettingCreatives)]);
    match Created(replies.creatives)
    case Some(creative) => Then(start, AdStage(adSquadId, creative, replies))
    case None =>
      Then(start, Effects([], [StatusWrite(adAccountId, Error, FailureMessage(replies.creatives, NoCreativeToCreateAds))]))
  }

  /** Create the ad squad and go on with its id. */
  function AdSquadStage(adAccountId: string, payload: AdSquadPayload, replies: Replies): Effects
  {
    var start := Effects([CreateAdSquadRequest(payload)], [StatusWrite(adAccountId, Pending, CreatingAdSquad)]);
    match Created(replies.adSquads)
    case Some(squad) => Then(start, CreativesStage(adAccountId, squad.id, replies))
    case None =>
      Then(start, Effects([], [StatusWrite(adAccountId, Error, FailureMessage(replies.adSquads, CreateAdSquadFailed))]))
  }

  /** Create the campaign and, when it has an id, go on with the draft carrying that id. */
  function CampaignStage(campaignPayload: CampaignPayload, adSquadPayload: AdSquadPayload, replies: Replies): Effects
  {
    var id := campaignPayload.adAccountId;
    var start := Effects([CreateCampaignRequest(campaignPayload)], [StatusWrite(id, Pending, CreatingCampaign)]);
    match CreatedCampaignId(replies.campaigns)
    case Some(campaignId) => Then(start, AdSquadStage(id, WithCampaignId(adSquadPayload, campaignId), replies))
    case None =>
      Then(start, Effects([], [StatusWrite(id, Error, FailureMessage(replies.campaigns, CreateCampaignFailed))]))
  }

  /** One account's whole chain, with the payloads the submit handler builds for it. */
  function AccountEffects(v: FormValues, id: string, replies: Replies): Effects
  {
    CampaignStage(CampaignPayloadFor(v, id), AdSquadDraft(v), replies)
  }

  /** The accounts of a selection, one whole chain after another, in selection order. */
  function SubmitEffects(v: FormValues, ids: seq<string>, replies: seq<Replies>): Effects
    requires |replies| == |ids|
  {
    if ids == [] then Effects([], [])
    else Then(AccountEffects(v, ids[0], replies[0]), SubmitEffects(v, ids[1..], replies[1..]))
  }

  // ---------------------------------------------------------------------------
  // A reference description of one chain: the state it stops in.
  // ---------------------------------------------------------------------------

  /** Where one account's chain ends, and the message or creative it ends with. */
  datatype Outcome =
    | CampaignFailed(message: string)
    | AdSquadFailed(message: string)
    | NoCreative(message: string)
    | AdFailed(creative: Creative, message: string)
    | Completed(creative: Creative)

  function OutcomeOf(replies: Replies): Outcome
  {
    if CreatedCampaignId(replies.campaigns).None? then
      CampaignFailed(FailureMessage(replies.campaigns, CreateCampaignFailed))
    else if Created(replies.adSquads).None? then
      AdSquadFailed(FailureMessage(replies.adSquads, CreateAdSquadFailed))
    else if Created(replies.creatives).None? then
      NoCreative(FailureMessage(replies.creatives, NoCreativeToCreateAds))
    else if Created(replies.ads).None? then
      AdFailed(Created(replies.creatives).value, FailureMessage(replies.ads, CreateCampaignFailed))
    else
      Completed(Created(replies.creatives).value)
  }

  /** How many requests a chain with this outcome sends. */
  function StagesRun(o: Outcome): nat
  {
    match o
    case CampaignFailed(_) => 1
    case AdSquadFailed(_) => 2
    case NoCreative(_) => 3
    case AdFailed(_, _) => 4
    case Completed(_) => 4
  }

  /** The rows as a chain with this outcome leaves them. */
  function OutcomeRows(rows: seq<AccountRow>, id: string, o: Outcome): seq<AccountRow>
  {
    match o
    case CampaignFailed(m) => WithStatus(rows, id, Error, m)
    case AdSquadFailed(m) => WithStatus(rows, id, Error, m)
    case NoCreative(m) => WithStatus(rows, id, Error, m)
    case AdFailed(c, m) => WithStatus(WithStatus(rows, id, Pending, GettingCreatives), c.adAccountId, Error, m)
    case Completed(c) => WithStatus(WithStatus(rows, id, Pending, GettingCreatives), c.adAccountId, Neutral, Done)
  }

  // ---------------------------------------------------------------------------
  // Lemmas about one account's chain.
  // ---------------------------------------------------------------------------

  lemma ApplyFirst(rows: seq<AccountRow>, w: StatusWrite, rest: seq<StatusWrite>)
    ensures ApplyWrites(rows, [w] + rest) == ApplyWrites(WithStatus(rows, w.id, w.style, w.message), rest)
  {
    ApplyWritesAppend(rows, [w], rest);
    assert [w][..0] == [];
  }

  lemma AdStageRows(rows: seq<AccountRow>, adSquadId: string, c: Creative, replies: Replies)
    ensures ApplyWrites(rows, AdStage(adSquadId, c, replies).writes) ==
            if Created(replies.ads).Some? then WithStatus(rows, c.adAccountId, Neutral, Done)
            else WithStatus(rows, c.adAccountId, Error, FailureMessage(replies.ads, CreateCampaignFailed))
  {
    var ws := AdStage(adSquadId, c, replies).writes;
    var w := ws[1];
    ApplyFirst(rows, ws[0], [w]);
    ApplyFirst(WithStatus(rows, c.adAccountId, Pending, CreatingAds), w, []);
    OverwriteStatus(rows, c.adAccountId, Pending, CreatingAds, w.style, w.message);
  }

  /** A pending update of the chain's own row is overridden by whatever the rest of the chain leaves. */
  lemma OutcomeRowsAbsorb(rows: seq<AccountRow>, id: string, m: string, o: Outcome)
    ensures OutcomeRows(WithStatus(rows, id, Pending, m), id, o) == OutcomeRows(rows, id, o)
  {
    match o
    case CampaignFailed(m') => OverwriteStatus(rows, id, Pending, m, Error, m');
    case AdSquadFailed(m') => OverwriteStatus(rows, id, Pending, m, Error, m');
    case NoCreative(m') => OverwriteStatus(rows, id, Pending, m, Error, m');
    case AdFailed(_, _) => OverwriteStatus(rows, id, Pending, m, Pending, GettingCreatives);
    case Completed(_) => OverwriteStatus(rows, id, Pending, m, Pending, GettingCreatives);
  }

  /** A failed stage: its pending update followed by its red one. */
  lemma FailedStageRows(rows: seq<AccountRow>, id: string, pending: string, m: string)
    ensures ApplyWrites(rows, [StatusWrite(id, Pending, pending)] + [StatusWrite(id, Error, m)])
         == WithStatus(rows, id, Error, m)
  {
    ApplyFirst(rows, StatusWrite(id, Pending, pending), [StatusWrite(id, Error, m)]);
    ApplyFirst(WithStatus(rows, id, Pending, pending), StatusWrite(id, Error, m), []);
    OverwriteStatus(rows, id, Pending, pending, Error, m);
  }

  lemma CreativesStageRows(rows: seq<AccountRow>, id: string, adSquadId: string, replies: Replies)
    requires CreatedCampaignId(replies.campaigns).Some? && Created(replies.adSquads).Some?
    ensures ApplyWrites(rows, CreativesStage(id, adSquadId, replies).writes) == OutcomeRows(rows, id, OutcomeOf(replies))
  {
    var w := StatusWrite(id, Pending, GettingCreatives);
    match Created(replies.creatives)
    case None =>
      FailedStageRows(rows, id, GettingCreatives, FailureMessage(replies.creatives, NoCreativeToCreateAds));
    case Some(c) =>
      var ad := AdStage(adSquadId, c, replies);
      assert CreativesStage(id, adSquadId, replies).writes == [w] + ad.writes;
      ApplyFirst(rows, w, ad.writes);
      AdStageRows(WithStatus(rows, id, Pending, GettingCreatives), adSquadId, c, replies);
  }

  lemma AdSquadStageRows(rows: seq<AccountRow>, id: string, payload: AdSquadPayload, replies: Replies)
    requires CreatedCampaignId(replies.campaigns).Some?
    ensures ApplyWrites(rows, AdSquadStage(id, payload, replies).writes) == OutcomeRows(rows, id, OutcomeOf(replies))
  {
    var w := StatusWrite(id, Pending, CreatingAdSquad);
    match Created(replies.adSquads)
    case None =>
      FailedStageRows(rows, id, CreatingAdSquad, FailureMessage(replies.adSquads, CreateAdSquadFailed));
    case Some(squad) =>
      var cr := CreativesStage(id, squad.id, replies);
      assert AdSquadStage(id, payload, replies).writes == [w] + cr.writes;
      ApplyFirst(rows, w, cr.writes);
      CreativesStageRows(WithStatus(rows, id, Pending, CreatingAdSquad), id, squad.id, replies);
      OutcomeRowsAbsorb(rows, id, CreatingAdSquad, OutcomeOf(replies));
  }

  /** A chain's rows as its outcome describes them. */
  lemma AccountRowsOutcome(rows: seq<AccountRow>, v: FormValues, id: string, replies: Replies)
    ensures ApplyWrites(rows, AccountEffects(v, id, replies).writes) == OutcomeRows(rows, id, OutcomeOf(replies))
  {
    var w := StatusWrite(id, Pending, CreatingCampaign);
    match CreatedCampaignId(replies.campaigns)
    case None =>
      FailedStageRows(rows, id, CreatingCampaign, FailureMessage(replies.campaigns, CreateCampaignFailed));
    case Some(campaignId) =>
      var sq := AdSquadStage(id, WithCampaignId(AdSquadDraft(v), campaignId), replies);
      assert AccountEffects(v, id, replies).writes == [w] + sq.writes;
      ApplyFirst(rows, w, sq.writes);
      AdSquadStageRows(WithStatus(rows, id, Pending, CreatingCampaign), id, WithCampaignId(AdSquadDraft(v), campaignId), replies);
      OutcomeRowsAbsorb(rows, id, CreatingCampaign, OutcomeOf(replies));
  }

  /**
   * The requests of one chain: the campaign request first, then, stage by
   * stage as far as the chain gets, the ad squad with the new campaign's id,
   * the creatives of the account, and the ad for the first creative.
   */
  lemma AccountTrace(v: FormValues, id: string, replies: Replies)
    ensures var e := AccountEffects(v, id, replies);
      && |e.requests| == StagesRun(OutcomeOf(replies))
      && e.requests[0] == CreateCampaignRequest(CampaignPayloadFor(v, id))
      && (forall j :: 1 <= j < |e.requests| ==> !e.requests[j].CreateCampaignRequest?)
      && (|e.requests| >= 2 ==>
            e.requests[1] == CreateAdSquadRequest(WithCampaignId(AdSquadDraft(v), CreatedCampaignId(replies.campaigns).value)))
      && (|e.requests| >= 3 ==> e.requests[2] == GetCreativesRequest(id))
      && (|e.requests| == 4 ==>
            var squad := Created(replies.adSquads).value;
            var c := Created(replies.creatives).value;
            e.requests[3] == CreateAdRequest(AdPayloadFor(squad.id, c.id, c.headline)))
  {
  }

  /** Each status update of a chain is aimed at its account or at its first creative's account. */
  lemma AccountWriteTargets(v: FormValues, id: string, replies: Replies)
    ensures var ws := AccountEffects(v, id, replies).writes;
      && |ws| > 0 && ws[0].id == id
      && forall k :: 0 <= k < |ws| ==> ws[k].id == id || Some(ws[k].id) == CreativeAccount(replies)
  {
  }

  /** A campaign without an id ends the chain: one request, the row red with the reason or the fallback. */
  lemma CampaignFailureStopsChain(rows: seq<AccountRow>, v: FormValues, id: string, replies: Replies)
    requires CreatedCampaignId(replies.campaigns).None?
    ensures AccountEffects(v, id, replies).requests == [CreateCampaignRequest(CampaignPayloadFor(v, id))]
    ensures ApplyWrites(rows, AccountEffects(v, id, replies).writes)
         == WithStatus(rows, id, Error, FailureMessage(replies.campaigns, "Create campaign failed"))
  {
    AccountRowsOutcome(rows, v, id, replies);
  }

  /** The ad squad is sent as the draft with only its campaign id replaced by the new campaign's id. */
  lemma AdSquadPayloadSent(v: FormValues, id: string, replies: Replies, campaignId: string)
    requires CreatedCampaignId(replies.campaigns) == Some(campaignId)
    ensures |AccountEffects(v, id, replies).requests| >= 2
    ensures AccountEffects(v, id, replies).requests[1] == CreateAdSquadRequest(AdSquadDraft(v).(campaignId := campaignId))
    ensures AdSquadDraft(v).campaignId == ""
  {
    AccountTrace(v, id, replies);
  }

  /** A missing ad squad ends the chain after two requests, with its own fallback. */
  lemma AdSquadFailureStopsChain(rows: seq<AccountRow>, v: FormValues, id: string, replies: Replies)
    requires CreatedCampaignId(replies.campaigns).Some? && Created(replies.adSquads).None?
    ensures |AccountEffects(v, id, replies).requests| == 2
    ensures ApplyWrites(rows, AccountEffects(v, id, replies).writes)
         == WithStatus(rows, id, Error, FailureMessage(replies.adSquads, "Create adSquad failed"))
  {
    AccountTrace(v, id, replies);
    AccountRowsOutcome(rows, v, id, replies);
  }

  /** No creative ends the chain after three requests, with its own fallback; no ad is requested. */
  lemma CreativeFailureStopsChain(rows: seq<AccountRow>, v: FormValues, id: string, replies: Replies)
    requires CreatedCampaignId(replies.campaigns).Some? && Created(replies.adSquads).Some?
    requires Created(replies.creatives).None?
    ensures |AccountEffects(v, id, replies).requests| == 3
    ensures forall j :: 0 <= j < 3 ==> !AccountEffects(v, id, replies).requests[j].CreateAdRequest?
    ensures ApplyWrites(rows, AccountEffects(v, id, replies).writes)
         == WithStatus(rows, id, Error, FailureMessage(replies.creatives, "No creative to create ads"))
  {
    AccountTrace(v, id, replies);
    AccountRowsOutcome(rows, v, id, replies);
  }

  /**
   * A failed ad marks the creative's account red, with the campaign fallback
   * text; the chain's own account keeps 'Getting creatives...' unless it is
   * the creative's account.
   */
  lemma AdFailureEndsChain(rows: seq<AccountRow>, v: FormValues, id: string, replies: Replies)
    requires CreatedCampaignId(replies.campaigns).Some? && Created(replies.adSquads).Some?
    requires Created(replies.creatives).Some? && Created(replies.ads).None?
    ensures |AccountEffects(v, id, replies).requests| == 4
    ensures var c := Created(replies.creatives).value;
      ApplyWrites(rows, AccountEffects(v, id, replies).writes)
      == WithStatus(WithStatus(rows, id, Pending, "Getting creatives..."),
                    c.adAccountId, Error, FailureMessage(replies.ads, "Create campaign failed"))
  {
    AccountTrace(v, id, replies);
    AccountRowsOutcome(rows, v, id, replies);
  }

  /**
   * A chain whose four stages succeed marks the row of the creative's account
   * 'Done' with the neutral class; when that is the chain's own account, only
   * that row changes.
   */
  lemma ChainCompletes(rows: seq<AccountRow>, v: FormValues, id: string, replies: Replies)
    requires CreatedCampaignId(replies.campaigns).Some? && Created(replies.adSquads).Some?
    requires Created(replies.creatives).Some? && Created(replies.ads).Some?
    ensures |AccountEffects(v, id, replies).requests| == 4
    ensures var c := Created(replies.creatives).value;
      ApplyWrites(rows, AccountEffects(v, id, replies).writes)
      == WithStatus(WithStatus(rows, id, Pending, "Getting creatives..."), c.adAccountId, Neutral, "Done")
    ensures Created(replies.creatives).value.adAccountId == id ==>
      ApplyWrites(rows, AccountEffects(v, id, replies).writes) == WithStatus(rows, id, Neutral, "Done")
  {
    AccountTrace(v, id, replies);
    AccountRowsOutcome(rows, v, id, replies);
    OverwriteStatus(rows, id, Pending, GettingCreatives, Neutral, Done);
  }

  /** Every response is read at its first element only. */
  function FirstOnly(replies: Replies): Replies
  {
    Replies(
      if |replies.campaigns| > 0 then replies.campaigns[..1] else [],
      if |replies.adSquads| > 0 then replies.adSquads[..1] else [],
      if |replies.creatives| > 0 then replies.creatives[..1] else [],
      if |replies.ads| > 0 then replies.ads[..1] else [])
  }

  lemma FirstElementsDecide(v: FormValues, id: string, replies: Replies)
    ensures AccountEffects(v, id, replies) == AccountEffects(v, id, FirstOnly(replies))
  {
  }

  // ---------------------------------------------------------------------------
  // Lemmas about a whole selection.
  // ---------------------------------------------------------------------------

  /** The effects of a selection are those of any prefix followed by those of the rest: no interleaving. */
  lemma ThenAssoc(a: Effects, b: Effects, c: Effects)
    ensures Then(a, Then(b, c)) == Then(Then(a, b), c)
  {
    assert a.requests + (b.requests + c.requests) == (a.requests + b.requests) + c.requests;
    assert a.writes + (b.writes + c.writes) == (a.writes + b.writes) + c.writes;
  }

  lemma {:induction false} SubmitSplit(v: FormValues, ids: seq<string>, replies: seq<Replies>, k: nat)
    requires |replies| == |ids| && k <= |ids|
    ensures SubmitEffects(v, ids, replies)
         == Then(SubmitEffects(v, ids[..k], replies[..k]), SubmitEffects(v, ids[k..], replies[k..]))
  {
    if k == 0 {
      assert ids[..0] == [] && replies[..0] == [];
      assert ids[0..] == ids && replies[0..] == replies;
      var all := SubmitEffects(v, ids, replies);
      assert Then(Effects([], []), all) == all;
    } else {
      var head := AccountEffects(v, ids[0], replies[0]);
      var tailIds, tailReplies := ids[1..], replies[1..];
      var prefixIds, prefixReplies := ids[..k], replies[..k];
      SubmitSplit(v, tailIds, tailReplies, k - 1);
      assert prefixIds[0] == ids[0] && prefixReplies[0] == replies[0];
      assert prefixIds[1..] == tailIds[..k - 1];
      assert prefixReplies[1..] == tailReplies[..k - 1];
      assert tailIds[k - 1..] == ids[k..];
      assert tailReplies[k - 1..] == replies[k..];
      var mid := SubmitEffects(v, tailIds[..k - 1], tailReplies[..k - 1]);
      var rest := SubmitEffects(v, ids[k..], replies[k..]);
      assert SubmitEffects(v, prefixIds, prefixReplies) == Then(head, mid);
      ThenAssoc(head, mid, rest);
    }
  }

  /** A selection processed one more account: its chain comes after all the earlier ones. */
  lemma SubmitStep(v: FormValues, ids: seq<string>, replies: seq<Replies>, i: nat)
    requires |replies| == |ids| && i < |ids|
    ensures SubmitEffects(v, ids[..i + 1], replies[..i + 1])
         == Then(SubmitEffects(v, ids[..i], replies[..i]), AccountEffects(v, ids[i], replies[i]))
  {
    var ids', replies' := ids[..i + 1], replies[..i + 1];
    SubmitSplit(v, ids', replies', i);
    assert ids'[..i] == ids[..i] && replies'[..i] == replies[..i];
    assert ids'[i..] == [ids[i]] && replies'[i..] == [replies[i]];
    var single := AccountEffects(v, ids[i], replies[i]);
    assert Then(single, Effects([], [])) == single;
  }

  /** The accounts of the campaign requests, in order. */
  function CampaignTargets(requests: seq<Request>): seq<string>
  {
    if requests == [] then []
    else (if requests[0].CreateCampaignRequest? then [requests[0].campaign.adAccountId] else [])
         + CampaignTargets(requests[1..])
  }

  lemma {:induction false} CampaignTargetsAppend(a: seq<Request>, b: seq<Request>)
    ensures CampaignTargets(a + b) == CampaignTargets(a) + CampaignTargets(b)
  {
    if a == [] {
      assert a + b == b;
    } else {
      assert (a + b)[1..] == a[1..] + b;
      CampaignTargetsAppend(a[1..], b);
    }
  }

  lemma {:induction false} NoCampaignTargets(requests: seq<Request>)
    requires forall j :: 0 <= j < |requests| ==> !requests[j].CreateCampaignRequest?
    ensures CampaignTargets(requests) == []
  {
    if requests != [] {
      NoCampaignTargets(requests[1..]);
    }
  }

  /** Exactly one campaign request per selected account, in selection order. */
  lemma {:induction false} CampaignRequestsFollowSelection(v: FormValues, ids: seq<string>, replies: seq<Replies>)
    requires |replies| == |ids|
    ensures CampaignTargets(SubmitEffects(v, ids, replies).requests) == ids
  {
    if ids != [] {
      var e := AccountEffects(v, ids[0], replies[0]);
      var rest := SubmitEffects(v, ids[1..], replies[1..]);
      CampaignRequestsFollowSelection(v, ids[1..], replies[1..]);
      CampaignTargetsAppend(e.requests, rest.requests);
      AccountTrace(v, ids[0], replies[0]);
      assert e.requests == [e.requests[0]] + e.requests[1..];
      CampaignTargetsAppend([e.requests[0]], e.requests[1..]);
      NoCampaignTargets(e.requests[1..]);
      assert CampaignTargets([e.requests[0]]) == [ids[0]];
    }
  }

  /** No chain of the selection is started for `x`, and no first creative names `x`. */
  ghost predicate Untouched(ids: seq<string>, replies: seq<Replies>, x: string)
    requires |replies| == |ids|
  {
    forall j :: 0 <= j < |ids| ==> ids[j] != x && CreativeAccount(replies[j]) != Some(x)
  }

  lemma {:induction false} UntouchedNotWritten(v: FormValues, ids: seq<string>, replies: seq<Replies>, x: string)
    requires |replies| == |ids| && Untouched(ids, replies, x)
    ensures LastWrite(SubmitEffects(v, ids, replies).writes, x) == None
  {
    if ids != [] {
      var e := AccountEffects(v, ids[0], replies[0]);
      var rest := SubmitEffects(v, ids[1..], replies[1..]);
      assert Untouched(ids[1..], replies[1..], x) by {
        forall j | 0 <= j < |ids| - 1 ensures ids[1..][j] != x && CreativeAccount(replies[1..][j]) != Some(x) {
          assert ids[1..][j] == ids[j + 1] && replies[1..][j] == replies[j + 1];
        }
      }
      UntouchedNotWritten(v, ids[1..], replies[1..], x);
      AccountWriteTargets(v, ids[0], replies[0]);
      assert ids[0] != x && CreativeAccount(replies[0]) != Some(x);
      LastWriteAppend(e.writes, rest.writes, x);
    }
  }

  /**
   * Rows of accounts that were not selected and that no first creative names
   * keep every field.
   */
  lemma SubmitLeavesOtherRows(rows: seq<AccountRow>, v: FormValues, ids: seq<string>, replies: seq<Replies>, k: nat)
    requires |replies| == |ids| && k < |rows|
    requires forall j :: 0 <= j < |ids| ==>
               ids[j] != rows[k].account.id && CreativeAccount(replies[j]) != Some(rows[k].account.id)
    ensures ApplyWrites(rows, SubmitEffects(v, ids, replies).writes)[k] == rows[k]
  {
    UntouchedNotWritten(v, ids, replies, rows[k].account.id);
    ApplyWritesAt(rows, SubmitEffects(v, ids, replies).writes, k);
  }

  /**
   * A selected account's row ends as its own chain alone would leave it,
   * whatever earlier chains wrote, as long as no later chain is started for it
   * or names it in its first creative.
   */
  lemma SubmitFinalRow(rows: seq<AccountRow>, v: FormValues, ids: seq<string>, replies: seq<Replies>, i: nat, k: nat)
    requires |replies| == |ids| && i < |ids| && k < |rows| && rows[k].account.id == ids[i]
    requires forall j :: i < j < |ids| ==> ids[j] != ids[i] && CreativeAccount(replies[j]) != Some(ids[i])
    ensures ApplyWrites(rows, SubmitEffects(v, ids, replies).writes)[k]
         == ApplyWrites(rows, AccountEffects(v, ids[i], replies[i]).writes)[k]
  {
    var x := ids[i];
    var before := SubmitEffects(v, ids[..i], replies[..i]);
    var own := AccountEffects(v, x, replies[i]);
    var after := SubmitEffects(v, ids[i + 1..], replies[i + 1..]);
    SubmitSplit(v, ids, replies, i + 1);
    SubmitStep(v, ids, replies, i);
    var all := SubmitEffects(v, ids, replies).writes;
    assert all == (before.writes + own.writes) + after.writes;
    assert Untouched(ids[i + 1..], replies[i + 1..], x) by {
      var laterIds, laterReplies := ids[i + 1..], replies[i + 1..];
      forall j | 0 <= j < |laterIds| ensures laterIds[j] != x && CreativeAccount(laterReplies[j]) != Some(x) {
        assert laterIds[j] == ids[i + 1 + j] && laterReplies[j] == replies[i + 1 + j];
      }
    }
    UntouchedNotWritten(v, ids[i + 1..], replies[i + 1..], x);
    LastWriteAppend(before.writes + own.writes, after.writes, x);
    AccountWriteTargets(v, x, replies[i]);
    assert LastWrite(own.writes, x).Some?;
    LastWriteAppend(before.writes, own.writes, x);
    ApplyWritesAt(rows, all, k);
    ApplyWritesAt(rows, own.writes, k);
  }

  /**
   * Two selected accounts: the first one's campaign is refused for
   * insufficient funds, the second one's chain completes. The first row ends
   * red with the server's reason, the second neutral with 'Done'.
   */
  lemma InsufficientFundsExample(rows: seq<AccountRow>, v: FormValues, k1: nat, k2: nat)
    requires k1 < |rows| && rows[k1].account.id == "acc1"
    requires k2 < |rows| && rows[k2].account.id == "acc2"
    ensures var refused := Replies([Entry(None, Some("INSUFFICIENT_FUNDS"))], [], [], []);
      var accepted := Replies([Entry(Some(Campaign("c2")), None)], [Entry(Some(AdSquad("s2")), None)],
                              [Entry(Some(Creative("cr2", "acc2", "Spring sale")), None)], [Entry(Some(Ad("a2")), None)]);
      var final := ApplyWrites(rows, SubmitEffects(v, ["acc1", "acc2"], [refused, accepted]).writes);
      && final[k1] == rows[k1].(style := Error, message := "INSUFFICIENT_FUNDS")
      && final[k2] == rows[k2].(style := Neutral, message := "Done")
  {
    var refused := Replies([Entry(None, Some("INSUFFICIENT_FUNDS"))], [], [], []);
    var accepted := Replies([Entry(Some(Campaign("c2")), None)], [Entry(Some(AdSquad("s2")), None)],
                            [Entry(Some(Creative("cr2", "acc2", "Spring sale")), None)], [Entry(Some(Ad("a2")), None)]);
    var ids, replies := ["acc1", "acc2"], [refused, accepted];
    assert CreativeAccount(accepted) == Some("acc2");
    SubmitFinalRow(rows, v, ids, replies, 0, k1);
    CampaignFailureStopsChain(rows, v, "acc1", refused);
    SubmitFinalRow(rows, v, ids, replies, 1, k2);
    ChainCompletes(rows, v, "acc2", accepted);
  }
}
