/** The data shapes of the service: the Canvas Kit component tree it returns
    to the inbox widget, the decoded form input, the campaign and space
    records the remote query service returns, and the error values that end
    a request. An optional JSON field that Go omits when empty is the empty
    string here, and a Go `*Action` field is an `Option<Action>`. */
module CanvasKit {
  import opened Wrappers
  import opened Strconv

  /** `Action`: what the widget does when a button is pressed (JSON `type`). */
  datatype Action = Action(actionType: string)

  /** `Option`: one choice of a selectable component. */
  datatype SelectOption = SelectOption(optionType: string, id: string, text: string)

  /** `Component`: one node of the component tree; `kind` is its JSON `type` and `labelText` its `label`. */
  datatype Component = Component(
    kind: string,
    text: string,
    style: string,
    id: string,
    labelText: string,
    placeholder: string,
    size: string,
    action: Option<Action>,
    options: seq<SelectOption>)

  function TextNode(text: string, style: string): Component
  {
    Component("text", text, style, "", "", "", "", None, [])
  }

  function SpacerNode(size: string): Component
  {
    Component("spacer", "", "", "", "", "", size, None, [])
  }

  function InputNode(id: string, caption: string, placeholder: string): Component
  {
    Component("input", "", "", id, caption, placeholder, "", None, [])
  }

  function ButtonNode(id: string, caption: string, style: string, actionType: string): Component
  {
    Component("button", "", style, id, caption, "", "", Some(Action(actionType)), [])
  }

  /** The action type that re-submits the form, and the one that reloads it. */
  const SUBMIT_ACTION := "submit"
  const INIT_ACTION := "init"

  /** `SubmitResponse`: the `input_values` of a submission (JSON `address`,
      `campaignId`, `spaceId`); a field the form leaves blank is "". */
  datatype SubmitResponse = SubmitResponse(userAddress: string, campaignId: string, spaceId: string)

  datatype Space = Space(id: string, name: string, isVerified: bool)

  datatype NftCore = NftCore(id: string, name: string, symbol: string, contractAddress: string, chain: string)

  /** `CampaignDetails`: one campaign as the remote service reports it for one address. */
  datatype CampaignDetails = CampaignDetails(
    id: string,
    name: string,
    status: string,
    space: Space,
    nftCore: NftCore,
    isNftHolder: bool,
    claimedTimes: Int64)

  datatype CampaignQueryResponse = CampaignQueryResponse(campaign: CampaignDetails)

  datatype CampaignIdList = CampaignIdList(id: string)

  datatype Campaigns = Campaigns(list: seq<CampaignIdList>)

  datatype SpaceDetails = SpaceDetails(id: string, name: string, chains: seq<string>, campaigns: Campaigns)

  datatype SpaceQueryResponse = SpaceQueryResponse(space: SpaceDetails)

  /** The ids of the campaigns a space lists, in the order listed. */
  function MemberIds(info: SpaceQueryResponse): (ids: seq<string>)
    ensures |ids| == |info.space.campaigns.list|
    ensures forall i | 0 <= i < |ids| :: ids[i] == info.space.campaigns.list[i].id
  {
    var list := info.space.campaigns.list;
    seq(|list|, i requires 0 <= i < |list| => list[i].id)
  }

  /** A non-nil Go `error` reaching the presenter: the `spaceId` could not be
      parsed, or a remote query failed with the client's message. */
  datatype Error = ParseError(numError: NumError) | QueryError(message: string)

  /** `err.Error()`. */
  function ErrorText(e: Error): string
  {
    match e
    case ParseError(n) => NumErrorText(n)
    case QueryError(m) => m
  }

  /** The form `InitCanvasKit` serves: static data, with one input per field
      of `SubmitResponse` and a button that submits them. */
  const INIT_FORM: seq<Component> := [
    TextNode("*Check address Galxe nft balance*", "header"),
    SpacerNode("s"),
    InputNode("address", "User Address", "0x..."),
    SpacerNode("s"),
    InputNode("campaignId", "campaign Id", ""),
    TextNode("*Or*", "paragraph"),
    InputNode("spaceId", "Space Id", ""),
    SpacerNode("s"),
    ButtonNode("query-address", "Check Address Balance", "primary", SUBMIT_ACTION)
  ]

  /** The initial form's inputs are exactly the fields a submission carries,
      and its only action submits them. */
  lemma InitFormMatchesSubmission()
    ensures forall k | 0 <= k < |INIT_FORM| && INIT_FORM[k].kind == "input" ::
              INIT_FORM[k].id in ["address", "campaignId", "spaceId"]
    ensures forall k | 0 <= k < |INIT_FORM| && INIT_FORM[k].action.Some? ::
              INIT_FORM[k].action == Some(Action(SUBMIT_ACTION))
    ensures forall id | id in ["address", "campaignId", "spaceId"] ::
              exists k | 0 <= k < |INIT_FORM| :: INIT_FORM[k].kind == "input" && INIT_FORM[k].id == id
  {
    assert INIT_FORM[2].id == "address" && INIT_FORM[4].id == "campaignId" && INIT_FORM[6].id == "spaceId";
  }
}
