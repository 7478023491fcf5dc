# Campaign-creation pipeline of the ad-operations page

This project models the core of the campaign-creation page of an ad-operations tool. An operator selects ad
accounts in a table and submits one shared campaign / ad-squad form. For each selected account, one account
after the other, the page runs a four-stage chain against the advertising platform's API:

1. create the campaign;
2. create the ad squad, carrying the new campaign's id;
3. fetch the account's creatives;
4. create an ad from the first creative.

Every stage first marks the account's table row as pending. It then reads only the first element of the
server's batch response. On success it hands the new id to the next stage. On failure it marks the row red,
using the server's `sub_request_error_reason` or the stage's fixed fallback text, and stops that account's
chain.

The model has five modules:

- `AccountTable` (account_table.dfy): the rows (`AccountRow`: the account, its status class, its status
  message). `LoadRows` gives the initial status of freshly loaded rows. `WithStatus` is the one row update every
  stage performs: map over the rows and restyle those whose id matches. `ApplyWrites` applies a sequence of
  such updates, and `LastWrite` is the last update aimed at an id.
- `Payloads` (payloads.dfy): reading the form (`ReadForm`), the per-account campaign payload, the ad-squad
  draft with its targeting block, the campaign-id substitution, and the ad payload.
- `Pipeline` (pipeline.dfy): the server's replies as input values (`Replies`: one batch response per stage,
  each a sequence of `Entry(entity?, reason?)`). The four stages are functions (`CampaignStage`,
  `AdSquadStage`, `CreativesStage`, `AdStage`). Each returns the requests it sends and the status updates it
  makes, including those of the stages it goes on to, nested as the page's handlers are. `SubmitEffects`
  concatenates whole chains in selection order. `OutcomeOf` and `OutcomeRows` are an independent, flat
  description of where a chain stops (campaign failed, ad squad failed, no creative, ad failed, completed),
  and they are proved to agree with the nested stages.
- `CreatePage` (create_page.dfy): the page state as a class `AccountsPage`. Its fields are `accounts` (the
  table rows, replaced at every status update) and `requests` (the requests sent so far). It has one method per
  stage, each calling the next as the source does, and `HandleSubmit`, the loop over the selection. Every
  method is proved to change the state exactly as the matching `Pipeline` function says.
- `Wrappers` (wrappers.dfy): `Option`.

Two quirks of the source are modelled as written:

- The ad stage finds its row by the creative's `ad_account_id`, not by the account whose chain is running.
  When the two differ, the chain's own row keeps 'Getting creatives...'. The creative's account gets the final
  status.
- The ad stage's failure fallback text is 'Create campaign failed'.

Two facts of the code that the model keeps:

- the creative stage's fallback text is 'No creative to create ads' (pages/campaigns/create.tsx:399);
- the success class `text-emerald-500` is declared (pages/campaigns/create.tsx:25) but no stage writes it: a
  completed chain ends with the neutral class `text-neutral-500` and 'Done' (pages/campaigns/create.tsx:354).

## Model

| member | source | states |
|---|---|---|
| `AccountTable.LoadRows` | pages/campaigns/create.tsx:79-88 | every loaded account becomes one row, in order, with its fields kept, status class Neutral, which the table renders as `text-neutral-500` (`ClassName`), and message 'No action' |
| `AccountTable.Ids` | pages/campaigns/create.tsx:170 | the selection's account ids, one per selected row, in selection order |
| `AccountTable.WithStatus` | pages/campaigns/create.tsx:277-288 | a status update keeps the number and order of rows; every row whose id differs is unchanged; in a matching row only the status class and message change, and they become the new ones |
| `AccountTable.ApplyWrites` | pages/campaigns/create.tsx:277-288 | a sequence of status updates never changes the row count or any row's account data |
| `AccountTable.LastWrite` | pages/campaigns/create.tsx:277-288 | the last update aimed at an id is one of the updates, names that id, and no later update names it; none exists only if no update names the id |
| `AccountTable.ApplyWritesAt` | pages/campaigns/create.tsx:277-288 | after any sequence of updates, each row carries the status of the last update aimed at its id, or is untouched if there is none |
| `AccountTable.OverwriteStatus` | pages/campaigns/create.tsx:302-313 | a later update of the same row overrides an earlier one (a stage's red status replaces its pending status) |
| `AccountTable.CommuteStatus` | pages/campaigns/create.tsx:277-288 | updates aimed at different account ids commute |
| `Payloads.Optional` | pages/campaigns/create.tsx:176-187 | an empty form field is left unset; otherwise its text is converted |
| `Payloads.UnlessAll` | pages/campaigns/create.tsx:250-258 | a targeting choice is unset exactly when it is 'ALL', otherwise kept as chosen |
| `Payloads.ReadForm` | pages/campaigns/create.tsx:173-213 | the optional start/end times and spend caps of campaign and ad squad are unset for empty fields and converted otherwise; all other fields are kept as text |
| `Payloads.CampaignPayloadFor` | pages/campaigns/create.tsx:220-229 | the campaign payload carries the given account id and the form's name, objective, status, times and spend caps |
| `Payloads.CampaignPayloadsShareForm` | pages/campaigns/create.tsx:219-229 | the campaign payloads of two accounts differ only in `ad_account_id` |
| `Payloads.TargetingFor` | pages/campaigns/create.tsx:247-266 | exactly one demographics, one devices and one geos entry; country code 'us'; gender unset iff 'ALL', otherwise the chosen gender; connection type unset iff 'ALL', otherwise the chosen one; ages and OS type from the form |
| `Payloads.AdSquadDraft` | pages/campaigns/create.tsx:231-267 | the draft's campaign id is the placeholder ''; name, status, times, delivery constraint and unconverted daily budget come from the form; the platform defaults are fixed (SNAP_ADS, AUTO_BID, IMPRESSION, auto bid on, target bid off, REMOTE_WEBPAGE, SWIPES, placement AUTOMATIC) |
| `Payloads.WithCampaignId` | pages/campaigns/create.tsx:298 | the result carries the new campaign id and equals the draft in every other field |
| `Payloads.AdPayloadFor` | pages/campaigns/create.tsx:331-337 | the ad names the ad squad and the creative, is named after the creative's headline, and is ACTIVE and REMOTE_WEBPAGE |
| `Pipeline.Created` | pages/campaigns/create.tsx:295 | the entity read from a response is that of its first element, and absent for an empty response |
| `Pipeline.FailureMessage` | pages/campaigns/create.tsx:300 | a failed stage's message is the first element's reason when present and non-empty, the fallback when absent or empty |
| `Pipeline.CreatedCampaignId` | pages/campaigns/create.tsx:295-297 | a campaign id is obtained exactly when the first element has a campaign with a non-empty id |
| `Pipeline.AccountRowsOutcome` | pages/campaigns/create.tsx:273-454 | the rows after one account's nested chain equal the flat outcome description: red with the failing stage's message, or, past the creative stage, the account pending 'Getting creatives...' and then the creative's account red or 'Done' |
| `Pipeline.AccountTrace` | pages/campaigns/create.tsx:273-454 | one chain sends 1 to 4 requests, as far as it gets: its campaign payload first and no other campaign request, then the draft carrying the new campaign id, then the creatives of the account, then the ad for the first creative with the new ad squad's id |
| `Pipeline.AccountWriteTargets` | pages/campaigns/create.tsx:317-329 | a chain's first status update is for its own account, and every update is for its own account or for its first creative's account |
| `Pipeline.CampaignFailureStopsChain` | pages/campaigns/create.tsx:295-313 | without a campaign id, only the campaign request is sent and the account's rows end `text-red-500` with the reason, or 'Create campaign failed' if it is absent or empty |
| `Pipeline.AdSquadPayloadSent` | pages/campaigns/create.tsx:298 | the second request is the ad-squad draft with only `campaign_id` replaced by the created campaign's id; the draft's placeholder is '' |
| `Pipeline.AdSquadFailureStopsChain` | pages/campaigns/create.tsx:435-453 | without an ad squad, exactly two requests are sent and the rows end red with the reason or 'Create adSquad failed' |
| `Pipeline.CreativeFailureStopsChain` | pages/campaigns/create.tsx:394-412 | without a first creative, exactly three requests are sent, none of them an ad, and the rows end red with the reason or 'No creative to create ads' |
| `Pipeline.AdFailureEndsChain` | pages/campaigns/create.tsx:344-373 | a failed ad marks the creative's account red with the reason or 'Create campaign failed', after the chain's own account was left at 'Getting creatives...' |
| `Pipeline.ChainCompletes` | pages/campaigns/create.tsx:346-358 | when all four stages succeed, the creative's account ends `text-neutral-500` / 'Done'; when that is the chain's own account, only that account's rows change |
| `Pipeline.FirstElementsDecide` | pages/campaigns/create.tsx:394-399 | a chain's requests and updates depend only on the first element of each response (only the first creative is used) |
| `Pipeline.SubmitSplit` | pages/campaigns/create.tsx:219-270 | the effects of a selection are those of any prefix followed by those of the rest: whole chains, never interleaved |
| `Pipeline.SubmitStep` | pages/campaigns/create.tsx:219-270 | processing one more account appends its whole chain after those of the accounts before it |
| `Pipeline.CampaignRequestsFollowSelection` | pages/campaigns/create.tsx:219-270 | exactly one campaign request per selected account, in selection order |
| `Pipeline.UntouchedNotWritten` | pages/campaigns/create.tsx:219-270 | no status update names an id that was not selected and that no first creative names |
| `Pipeline.SubmitLeavesOtherRows` | pages/campaigns/create.tsx:219-270 | the rows of accounts that were neither selected nor named by a first creative keep every field |
| `Pipeline.SubmitFinalRow` | pages/campaigns/create.tsx:219-270 | a selected account's row ends as its own chain alone leaves it, whatever earlier chains wrote, when no later chain is for it or names it in its creative |
| `Pipeline.InsufficientFundsExample` | pages/campaigns/create.tsx:295-358 | with selection [acc1, acc2], acc1 refused with 'INSUFFICIENT_FUNDS' and acc2 succeeding, acc1 ends red with that reason and acc2 neutral with 'Done' |
| `Pipeline.OutcomeRowsAbsorb` | pages/campaigns/create.tsx:277-288 | a pending update of the chain's own row is overridden by the chain's outcome |
| `Pipeline.FailedStageRows` | pages/campaigns/create.tsx:302-313 | a failed stage's pending and red updates leave the row red with the message |
| `Pipeline.CreativesStageRows` | pages/campaigns/create.tsx:376-413 | the creatives stage leaves the rows as the outcome description says |
| `Pipeline.AdSquadStageRows` | pages/campaigns/create.tsx:415-454 | the ad-squad stage leaves the rows as the outcome description says |
| `Pipeline.AdStageRows` | pages/campaigns/create.tsx:346-373 | the ad stage leaves the creative's account 'Done' or red with its message, the pending update overridden |
| `CreatePage.SubmitStepApplied` | pages/campaigns/create.tsx:219-270 | one more loop iteration applies that account's chain after the earlier ones, to both the rows and the request trace |
| `CreatePage.AccountsPage.constructor` | pages/campaigns/create.tsx:33 | the page starts with no rows and no requests |
| `CreatePage.AccountsPage.LoadAccounts` | pages/campaigns/create.tsx:79-88 | loading replaces the rows with the loaded accounts, each neutral with 'No action', and sends nothing |
| `CreatePage.AccountsPage.SetStatus` | pages/campaigns/create.tsx:277-288 | the rows become `WithStatus` of the old rows; nothing is sent |
| `CreatePage.AccountsPage.Send` | pages/campaigns/create.tsx:293 | one request is appended to the trace; the rows are unchanged |
| `CreatePage.AccountsPage.CreateAd` | pages/campaigns/create.tsx:317-374 | rows and trace change exactly as `AdStage` says |
| `CreatePage.AccountsPage.GetCreatives` | pages/campaigns/create.tsx:376-413 | rows and trace change exactly as `CreativesStage` says, including the ad stage it goes on to |
| `CreatePage.AccountsPage.CreateAdSquad` | pages/campaigns/create.tsx:415-454 | rows and trace change exactly as `AdSquadStage` says, including the stages it goes on to |
| `CreatePage.AccountsPage.CreateCampaign` | pages/campaigns/create.tsx:273-315 | rows and trace change exactly as `CampaignStage` says, including the stages it goes on to |
| `CreatePage.AccountsPage.RunAccount` | pages/campaigns/create.tsx:220-269 | one loop iteration builds the account's payloads and runs its whole chain, as `AccountEffects` says |
| `CreatePage.AccountsPage.HandleSubmit` | pages/campaigns/create.tsx:167-271 | the rows and trace change exactly as `SubmitEffects` over the selection in order says; an empty selection sends nothing and changes no row |

## Left out

- The organization, ad-account and campaign-list fetches, with their loading flags and their alert or silent
  error handling (pages/campaigns/create.tsx:48-117). Only their effect on the table is modelled: loaded
  accounts become rows with their initial status (`LoadAccounts`).
- Presentation: table columns, form markup, the session gate, the campaign modal and the memoised display
  helpers (pages/campaigns/create.tsx:127-160, 456-689). The table's row-selection hook is not part of this
  model: the selected rows are an input to `HandleSubmit`.
- HTTP, `JSON.stringify`, `response.json()` and lodash `_.get`. Each response is an input value, already
  parsed: one `Replies` record per selected account. This is why `HandleSubmit` requires as many reply
  records as selected rows.
- Network errors and unparseable bodies. In the source these reject the awaited promise and abandon the rest
  of the loop. The modelled server always answers with a body.
- `new Date(...).toISOString()` and `Number(...)` are the parameters `toIso` and `toNumber`. Date parsing,
  floating point and NaN are not modelled.
- The ages and the ad squad's daily budget are passed on as the form's text, as in the source.
- A missing entity id is written as the empty string. For the campaign this matches the source: a missing id
  and an empty id both fail its truthiness test. For the ad squad and the creative the source passes an
  undefined id on unchecked, and the model passes "" on.
- Failure reasons are strings. A non-string truthy `sub_request_error_reason` is not modelled.
- The values of `@models/enums` are written as the enum members' names (SNAP_ADS, AUTO_BID, SWIPES, ACTIVE,
  REMOTE_WEBPAGE), since @models/enums is not part of this model. The same holds for the fields of
  `AdAccountDTO`: a row keeps the id, name, status and currency that the table shows.
- The order between requests and status updates. Requests and updates are two separate ordered traces, so no
  contract states that a stage's pending update comes before its request. The methods of `AccountsPage` issue
  them in the source's order (the update first, then the request), but only their bodies show it.
- Async suspension is modelled as ordinary sequential calls. React's functional state updates are applied in
  the order they are issued.
- pages/tools/swagger.tsx is a static page with an embedded frame and has no logic.
