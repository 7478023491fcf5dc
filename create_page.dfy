/**
 * The campaign-creation page as a state machine: it holds the account table
 * and the requests it has sent; the submit handler runs the four-stage chain
 * for each selected account, one account after the other.
 */
module CreatePage {
  import opened AccountTable
  import opened Payloads
  import opened Pipeline

  lemma ApplyOne(rows: seq<AccountRow>, w: StatusWrite)
    ensures ApplyWrites(rows, [w]) == WithStatus(rows, w.id, w.style, w.message)
  {
    assert [w][..0] == [];
  }

  lemma ApplyTwo(rows: seq<AccountRow>, w1: StatusWrite, w2: StatusWrite)
    ensures ApplyWrites(rows, [w1, w2])
         == WithStatus(WithStatus(rows, w1.id, w1.style, w1.message), w2.id, w2.style, w2.message)
  {
    ApplyFirst(rows, w1, [w2]);
    assert [w1] + [w2] == [w1, w2];
    ApplyOne(WithStatus(rows, w1.id, w1.style, w1.message), w2);
  }

  lemma ConcatAssoc<T>(a: seq<T>, b: seq<T>, c: seq<T>)
    ensures (a + b) + c == a + (b + c)
  {
  }

  /** Running one more account's chain extends the effects of the accounts before it. */
  lemma SubmitStepApplied(rows: seq<AccountRow>, v: FormValues, ids: seq<string>, replies: seq<Replies>, i: nat)
    requires |replies| == |ids| && i < |ids|
    ensures var before := SubmitEffects(v, ids[..i], replies[..i]);
      var own := AccountEffects(v, ids[i], replies[i]);
      var after := SubmitEffects(v, ids[..i + 1], replies[..i + 1]);
      && ApplyWrites(rows, after.writes) == ApplyWrites(ApplyWrites(rows, before.writes), own.writes)
      && after.requests == before.requests + own.requests
  {
    SubmitStep(v, ids, replies, i);
    ApplyWritesAppend(rows, SubmitEffects(v, ids[..i], replies[..i]).writes, AccountEffects(v, ids[i], replies[i]).writes);
  }

  class AccountsPage {
    /** The rows of the account table. */
    var accounts: seq<AccountRow>
    /** The requests sent to the server so far, oldest first. */
    var requests: seq<Request>

    constructor ()
      ensures accounts == [] && requests == []
    {
      accounts := [];
      requests := [];
    }

    /** The organization's accounts arrive: every row starts neutral with 'No action'. */
    method LoadAccounts(loaded: seq<AdAccount>)
      modifies this
      ensures accounts == LoadRows(loaded)
      ensures requests == old(requests)
    {
      accounts := LoadRows(loaded);
    }

    /** Replace the status of the rows of account `id`. */
    method SetStatus(id: string, style: StatusClass, message: string)
      modifies this
      ensures accounts == WithStatus(old(accounts), id, style, message)
      ensures requests == old(requests)
    {
      accounts := WithStatus(accounts, id, style, message);
    }

    /** Send one request; its answer is supplied by the caller of the stage. */
    method Send(r: Request)
      modifies this
      ensures requests == old(requests) + [r]
      ensures accounts == old(accounts)
    {
      requests := requests + [r];
    }

    /** The last stage; its rows are found by the creative's account id. */
    method CreateAd(adSquadId: string, creative: Creative, replies: Replies)
      modifies this
      ensures accounts == ApplyWrites(old(accounts), AdStage(adSquadId, creative, replies).writes)
      ensures requests == old(requests) + AdStage(adSquadId, creative, replies).requests
    {
      SetStatus(creative.adAccountId, Pending, CreatingAds);
      Send(CreateAdRequest(AdPayloadFor(adSquadId, creative.id, creative.headline)));
      var createdAd := Created(replies.ads);
      if createdAd.Some? {
        SetStatus(creative.adAccountId, Neutral, Done);
      } else {
        var message := FailureMessage(replies.ads, CreateCampaignFailed);
        SetStatus(creative.adAccountId, Error, message);
      }
      var e := AdStage(adSquadId, creative, replies);
      ApplyTwo(old(accounts), e.writes[0], e.writes[1]);
    }

    method GetCreatives(adAccountId: string, adSquadId: string, replies: Replies)
      modifies this
      ensures accounts == ApplyWrites(old(accounts), CreativesStage(adAccountId, adSquadId, replies).writes)
      ensures requests == old(requests) + CreativesStage(adAccountId, adSquadId, replies).requests
    {
      var pending := StatusWrite(adAccountId, Pending, GettingCreatives);
      SetStatus(adAccountId, Pending, GettingCreatives);
      Send(GetCreativesRequest(adAccountId));
      var creative := Created(replies.creatives);
      if creative.Some? {
        CreateAd(adSquadId, creative.value, replies);
        ApplyFirst(old(accounts), pending, AdStage(adSquadId, creative.value, replies).writes);
      } else {
        var message := FailureMessage(replies.creatives, NoCreativeToCreateAds);
        SetStatus(adAccountId, Error, message);
        ApplyTwo(old(accounts), pending, StatusWrite(adAccountId, Error, message));
      }
    }

    method CreateAdSquad(adAccountId: string, payload: AdSquadPayload, replies: Replies)
      modifies this
      ensures accounts == ApplyWrites(old(accounts), AdSquadStage(adAccountId, payload, replies).writes)
      ensures requests == old(requests) + AdSquadStage(adAccountId, payload, replies).requests
    {
      var pending := StatusWrite(adAccountId, Pending, CreatingAdSquad);
      SetStatus(adAccountId, Pending, CreatingAdSquad);
      Send(CreateAdSquadRequest(payload));
      var newAdSquad := Created(replies.adSquads);
      if newAdSquad.Some? {
        GetCreatives(adAccountId, newAdSquad.value.id, replies);
        ApplyFirst(old(accounts), pending, CreativesStage(adAccountId, newAdSquad.value.id, replies).writes);
      } else {
        var message := FailureMessage(replies.adSquads, CreateAdSquadFailed);
        SetStatus(adAccountId, Error, message);
        ApplyTwo(old(accounts), pending, StatusWrite(adAccountId, Error, message));
      }
    }

    method CreateCampaign(campaignPayload: CampaignPayload, adSquadPayload: AdSquadPayload, replies: Replies)
      modifies this
      ensures accounts == ApplyWrites(old(accounts), CampaignStage(campaignPayload, adSquadPayload, replies).writes)
      ensures requests == old(requests) + CampaignStage(campaignPayload, adSquadPayload, replies).requests
    {
      var id := campaignPayload.adAccountId;
      var pending := StatusWrite(id, Pending, CreatingCampaign);
      SetStatus(id, Pending, CreatingCampaign);
      Send(CreateCampaignRequest(campaignPayload));
      var campaignId := CreatedCampaignId(replies.campaigns);
      if campaignId.Some? {
        var payload := WithCampaignId(adSquadPayload, campaignId.value);
        CreateAdSquad(id, payload, replies);
        ApplyFirst(old(accounts), pending, AdSquadStage(id, payload, replies).writes);
      } else {
        var message := FailureMessage(replies.campaigns, CreateCampaignFailed);
        SetStatus(id, Error, message);
        ApplyTwo(old(accounts), pending, StatusWrite(id, Error, message));
      }
    }

    /** One iteration of the submit loop: the payloads for account `id`, then its chain. */
    method RunAccount(v: FormValues, id: string, replies: Replies)
      modifies this
      ensures accounts == ApplyWrites(old(accounts), AccountEffects(v, id, replies).writes)
      ensures requests == old(requests) + AccountEffects(v, id, replies).requests
    {
      var campaignPayload := CampaignPayloadFor(v, id);
      var adSquadPayload := AdSquadDraft(v);
      CreateCampaign(campaignPayload, adSquadPayload, replies);
    }

    /**
     * The submit handler: read the form once, then run each selected
     * account's whole chain in selection order. An empty selection returns
     * before any request. `replies[j]` is what the server answers to the
     * chain of the `j`-th selected account.
     */
    method HandleSubmit(form: SubmittedForm, toIso: string -> string, toNumber: string -> int,
                        selected: seq<AccountRow>, replies: seq<Replies>)
      requires |replies| == |selected|
      modifies this
      ensures var e := SubmitEffects(ReadForm(form, toIso, toNumber), Ids(selected), replies);
        && accounts == ApplyWrites(old(accounts), e.writes)
        && requests == old(requests) + e.requests
      ensures selected == [] ==> accounts == old(accounts) && requests == old(requests)
    {
      var ids := Ids(selected);
      var v := ReadForm(form, toIso, toNumber);
      if |ids| == 0 {
        assert SubmitEffects(v, ids, replies) == Effects([], []);
        return;
      }
      ghost var rows0, requests0 := accounts, requests;
      var i := 0;
      while i < |ids|
        invariant 0 <= i <= |ids|
        invariant accounts == ApplyWrites(rows0, SubmitEffects(v, ids[..i], replies[..i]).writes)
        invariant requests == requests0 + SubmitEffects(v, ids[..i], replies[..i]).requests
      {
        ghost var before := SubmitEffects(v, ids[..i], replies[..i]).requests;
        ghost var own := AccountEffects(v, ids[i], replies[i]).requests;
        SubmitStepApplied(rows0, v, ids, replies, i);
        ghost var sent := requests;
        RunAccount(v, ids[i], replies[i]);
        assert requests == sent + own;
        ConcatAssoc(requests0, before, own);
        i := i + 1;
      }
      assert ids[..|ids|] == ids && replies[..|ids|] == replies;
    }
  }
}
