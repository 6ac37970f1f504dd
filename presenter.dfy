/** The presenter: turns resolved campaigns, or an error, into the components
    the widget shows. Each campaign becomes a fixed block of four text nodes;
    a success rendering ends with a "Query Again" button that re-submits the
    form, an error rendering with a "Refresh" button that reloads it. */
module Presenter {
  import opened Wrappers
  import opened Strconv
  import opened CanvasKit

  const CAMPAIGN_ID_PREFIX := "Campaign ID: "
  const NAME_PREFIX := "Name: "
  const HOLDER_PREFIX := "Is NFT Holder: "
  const CLAIMED_PREFIX := "Claimed Times: "
  const ERROR_PREFIX := "Error: "
  const UNKNOWN_ERROR := "Unknown error occurred"

  /** The button appended after the campaign blocks on every success path. */
  const QUERY_AGAIN_BUTTON := ButtonNode("query-again", "Query Again", "primary", SUBMIT_ACTION)

  /** The button that ends every error rendering. */
  const REFRESH_BUTTON := ButtonNode("refresh-button", "Refresh", "primary", INIT_ACTION)

  /** The four display nodes of one campaign: its id as a header, then its
      name, its NFT-holder flag and its claim count as paragraphs. */
  function CampaignNodes(info: CampaignQueryResponse): (block: seq<Component>)
    ensures |block| == 4
    ensures forall k | 0 <= k < 4 :: block[k].kind == "text" && block[k].action == None
    ensures block[0].style == "header"
    ensures forall k | 1 <= k < 4 :: block[k].style == "paragraph"
  {
    var c := info.campaign;
    [ TextNode(CAMPAIGN_ID_PREFIX + c.id, "header"),
      TextNode(NAME_PREFIX + c.name, "paragraph"),
      TextNode(HOLDER_PREFIX + FormatBool(c.isNftHolder), "paragraph"),
      TextNode(CLAIMED_PREFIX + FormatInt(c.claimedTimes), "paragraph") ]
  }

  /** The blocks of all campaigns, in the order given. */
  function RenderCampaigns(campaigns: seq<CampaignQueryResponse>): seq<Component>
  {
    if campaigns == [] then []
    else RenderCampaigns(campaigns[..|campaigns| - 1]) + CampaignNodes(campaigns[|campaigns| - 1])
  }

  /** The slice of a component list that holds block `j`. */
  function NthBlock(components: seq<Component>, j: nat): seq<Component>
    requires 4 * j + 4 <= |components|
  {
    components[4 * j..4 * j + 4]
  }

  lemma {:induction false} RenderCampaignsLength(campaigns: seq<CampaignQueryResponse>)
    ensures |RenderCampaigns(campaigns)| == 4 * |campaigns|
  {
    if campaigns != [] {
      RenderCampaignsLength(campaigns[..|campaigns| - 1]);
    }
  }

  lemma SliceOfConcatLeft<T>(a: seq<T>, b: seq<T>, lo: nat, hi: nat)
    requires lo <= hi <= |a|
    ensures (a + b)[lo..hi] == a[lo..hi]
  {
  }

  lemma SliceOfConcatRight<T>(a: seq<T>, b: seq<T>)
    ensures (a + b)[|a|..|a| + |b|] == b
    ensures (a + b)[..|a|] == a
  {
  }

  /** Appending nodes leaves the blocks before them in place. */
  lemma NthBlockOfFront(front: seq<Component>, back: seq<Component>, j: nat)
    requires 4 * j + 4 <= |front|
    ensures NthBlock(front + back, j) == NthBlock(front, j)
  {
    SliceOfConcatLeft(front, back, 4 * j, 4 * j + 4);
  }

  /** Four nodes appended after j blocks form block j. */
  lemma NthBlockOfBack(front: seq<Component>, back: seq<Component>, j: nat)
    requires |front| == 4 * j && |back| == 4
    ensures NthBlock(front + back, j) == back
  {
    SliceOfConcatRight(front, back);
  }

  /** NthBlock `i` of the rendering is the block of `campaigns[i]`. */
  lemma {:induction false} RenderCampaignsAt(campaigns: seq<CampaignQueryResponse>, i: nat)
    requires i < |campaigns|
    ensures |RenderCampaigns(campaigns)| == 4 * |campaigns|
    ensures NthBlock(RenderCampaigns(campaigns), i) == CampaignNodes(campaigns[i])
  {
    var init := campaigns[..|campaigns| - 1];
    var front := RenderCampaigns(init);
    var back := CampaignNodes(campaigns[|campaigns| - 1]);
    RenderCampaignsLength(init);
    if i < |init| {
      RenderCampaignsAt(init, i);
      NthBlockOfFront(front, back, i);
    } else {
      NthBlockOfBack(front, back, i);
    }
  }

  /** Campaign blocks hold text nodes only, none with an action. */
  lemma {:induction false} RenderCampaignsAreText(campaigns: seq<CampaignQueryResponse>)
    ensures forall k | 0 <= k < |RenderCampaigns(campaigns)| ::
              RenderCampaigns(campaigns)[k].kind == "text" && RenderCampaigns(campaigns)[k].action == None
  {
    if campaigns != [] {
      RenderCampaignsAreText(campaigns[..|campaigns| - 1]);
    }
  }

  /** Rendering one more campaign appends its block. */
  lemma RenderCampaignsStep(campaigns: seq<CampaignQueryResponse>, i: nat)
    requires i < |campaigns|
    ensures RenderCampaigns(campaigns[..i + 1]) == RenderCampaigns(campaigns[..i]) + CampaignNodes(campaigns[i])
  {
    assert campaigns[..i + 1][..i] == campaigns[..i];
  }

  /** The rendering of n campaigns is n blocks, block i that of `campaigns[i]`. */
  lemma RenderCampaignsEach(campaigns: seq<CampaignQueryResponse>)
    ensures |RenderCampaigns(campaigns)| == 4 * |campaigns|
    ensures forall i | 0 <= i < |campaigns| :: NthBlock(RenderCampaigns(campaigns), i) == CampaignNodes(campaigns[i])
  {
    RenderCampaignsLength(campaigns);
    forall i | 0 <= i < |campaigns|
      ensures NthBlock(RenderCampaigns(campaigns), i) == CampaignNodes(campaigns[i])
    {
      RenderCampaignsAt(campaigns, i);
    }
  }

  /** `BuildCampaignComponents`: appends the four nodes of each campaign in
      turn; what the result holds is proved about `RenderCampaigns` above. */
  method BuildCampaignComponents(campaigns: seq<CampaignQueryResponse>) returns (components: seq<Component>)
    ensures components == RenderCampaigns(campaigns)
  {
    components := [];
    for i := 0 to |campaigns|
      invariant components == RenderCampaigns(campaigns[..i])
    {
      var c := campaigns[i].campaign;
      RenderCampaignsStep(campaigns, i);
      components := components + [TextNode(CAMPAIGN_ID_PREFIX + c.id, "header")];
      components := components + [TextNode(NAME_PREFIX + c.name, "paragraph")];
      components := components + [TextNode(HOLDER_PREFIX + FormatBool(c.isNftHolder), "paragraph")];
      components := components + [TextNode(CLAIMED_PREFIX + FormatInt(c.claimedTimes), "paragraph")];
    }
    assert campaigns[..|campaigns|] == campaigns;
  }

  /** The components of a success response: the campaign blocks, then the
      "Query Again" button. */
  function SuccessComponents(campaigns: seq<CampaignQueryResponse>): seq<Component>
  {
    RenderCampaigns(campaigns) + [QUERY_AGAIN_BUTTON]
  }

  /** A success rendering is 4 nodes per campaign and one trailing button: the
      button is its last node, every other node is action-free text, and no
      node reloads the form. */
  lemma SuccessComponentsShape(campaigns: seq<CampaignQueryResponse>)
    ensures |SuccessComponents(campaigns)| == 4 * |campaigns| + 1
    ensures SuccessComponents(campaigns)[4 * |campaigns|] == QUERY_AGAIN_BUTTON
    ensures forall k | 0 <= k < 4 * |campaigns| ::
              SuccessComponents(campaigns)[k].kind == "text" && SuccessComponents(campaigns)[k].action == None
    ensures forall k | 0 <= k < |SuccessComponents(campaigns)| ::
              SuccessComponents(campaigns)[k].action != Some(Action(INIT_ACTION))
  {
    RenderCampaignsLength(campaigns);
    RenderCampaignsAreText(campaigns);
  }

  /** The message an error rendering shows: the error's text, or a fixed
      placeholder for a nil error. */
  function ErrorMessage(err: Option<Error>): (msg: string)
    ensures err == None ==> msg == UNKNOWN_ERROR
    ensures err.Some? ==> msg == ErrorText(err.value)
  {
    match err
    case None => UNKNOWN_ERROR
    case Some(e) => ErrorText(e)
  }

  /** The message shown for each kind of non-nil error: Go's `strconv.Atoi`
      error text, naming the rejected space id, or the client's message for
      a failed query. */
  lemma ErrorMessageTexts(num: string, message: string)
    ensures ErrorMessage(Some(ParseError(NumError(num, ErrSyntax)))) ==
              "strconv.Atoi: parsing \"" + num + "\": invalid syntax"
    ensures ErrorMessage(Some(ParseError(NumError(num, ErrRange)))) ==
              "strconv.Atoi: parsing \"" + num + "\": value out of range"
    ensures ErrorMessage(Some(QueryError(message))) == message
  {
    SyntaxErrorText(num);
    RangeErrorText(num);
  }

  /** The components of an error response: the message as a header, a
      spacer, and the "Refresh" button. */
  function ErrorComponents(err: Option<Error>): seq<Component>
  {
    [TextNode(ERROR_PREFIX + ErrorMessage(err), "header"), SpacerNode("s"), REFRESH_BUTTON]
  }

  /** `BuildErrorComponents`. */
  method BuildErrorComponents(err: Option<Error>) returns (components: seq<Component>)
    ensures components == ErrorComponents(err)
    ensures |components| == 3
    ensures components[0].kind == "text" && components[0].style == "header"
    ensures components[0].text == ERROR_PREFIX + ErrorMessage(err)
    ensures components[1].kind == "spacer" && components[1].size == "s"
    ensures components[2].kind == "button" && components[2].id == "refresh-button"
    ensures components[2].action == Some(Action(INIT_ACTION))
  {
    components := [];
    var errorMsg := UNKNOWN_ERROR;
    if err.Some? {
      errorMsg := ErrorText(err.value);
    }
    components := components + [TextNode(ERROR_PREFIX + errorMsg, "header")];
    components := components + [SpacerNode("s")];
    components := components + [REFRESH_BUTTON];
  }

  /** No error rendering re-submits the form, and none equals a success rendering. */
  lemma ErrorComponentsNeverSubmit(err: Option<Error>, campaigns: seq<CampaignQueryResponse>)
    ensures forall k | 0 <= k < |ErrorComponents(err)| ::
              ErrorComponents(err)[k].action != Some(Action(SUBMIT_ACTION))
    ensures ErrorComponents(err) != SuccessComponents(campaigns)
  {
    SuccessComponentsShape(campaigns);
    var s := SuccessComponents(campaigns);
    assert s[|s| - 1] == QUERY_AGAIN_BUTTON;
  }

  /** The fields a campaign block shows. */
  datatype Shown = Shown(id: string, name: string, isNftHolder: bool, claimedTimes: Int64)

  function Displayed(info: CampaignQueryResponse): Shown
  {
    Shown(info.campaign.id, info.campaign.name, info.campaign.isNftHolder, info.campaign.claimedTimes)
  }

  function DisplayedAll(campaigns: seq<CampaignQueryResponse>): (r: seq<Shown>)
    ensures |r| == |campaigns|
    ensures forall i | 0 <= i < |campaigns| :: r[i] == Displayed(campaigns[i])
  {
    if campaigns == [] then [] else DisplayedAll(campaigns[..|campaigns| - 1]) + [Displayed(campaigns[|campaigns| - 1])]
  }

  function StripPrefix(prefix: string, s: string): Option<string>
  {
    if prefix <= s then Some(s[|prefix|..]) else None
  }

  function ParseBool(s: string): Option<bool>
  {
    if s == "true" then Some(true) else if s == "false" then Some(false) else None
  }

  /** The `%v` text of the holder flag reads back as the same flag. */
  lemma ParseBoolFormatBool(b: bool)
    ensures ParseBool(FormatBool(b)) == Some(b)
  {
  }

  /** Reads the four fields back from the texts of one block. */
  function DecodeBlock(block: seq<Component>): Option<Shown>
    requires |block| == 4
  {
    var id := StripPrefix(CAMPAIGN_ID_PREFIX, block[0].text);
    var name := StripPrefix(NAME_PREFIX, block[1].text);
    var holder := StripPrefix(HOLDER_PREFIX, block[2].text);
    var claimed := StripPrefix(CLAIMED_PREFIX, block[3].text);
    if id.None? || name.None? || holder.None? || claimed.None? then None
    else
      var flag := ParseBool(holder.value);
      var count := Atoi(claimed.value);
      if flag.None? || count.Failure? then None
      else Some(Shown(id.value, name.value, flag.value, count.value))
  }

  /** Reads back every block of a list of campaign blocks. */
  function DecodeBlocks(components: seq<Component>): Option<seq<Shown>>
    decreases |components|
  {
    if components == [] then Some([])
    else if |components| < 4 then None
    else
      var n := |components| - 4;
      var init := DecodeBlocks(components[..n]);
      var last := DecodeBlock(components[n..]);
      if init.None? || last.None? then None else Some(init.value + [last.value])
  }

  /** One block reads back as the fields of its campaign. */
  lemma DecodeBlockOf(info: CampaignQueryResponse)
    ensures DecodeBlock(CampaignNodes(info)) == Some(Displayed(info))
  {
    var c := info.campaign;
    var b := CampaignNodes(info);
    AtoiFormatInt(c.claimedTimes);
    assert StripPrefix(CAMPAIGN_ID_PREFIX, b[0].text) == Some(c.id);
    assert StripPrefix(NAME_PREFIX, b[1].text) == Some(c.name);
    assert StripPrefix(HOLDER_PREFIX, b[2].text) == Some(FormatBool(c.isNftHolder));
    assert StripPrefix(CLAIMED_PREFIX, b[3].text) == Some(FormatInt(c.claimedTimes));
  }

  lemma DecodeBlocksAppend(front: seq<Component>, block: seq<Component>)
    requires |block| == 4 && DecodeBlocks(front).Some? && DecodeBlock(block).Some?
    ensures DecodeBlocks(front + block) == Some(DecodeBlocks(front).value + [DecodeBlock(block).value])
  {
    SliceOfConcatRight(front, block);
  }

  /** The rendering loses nothing it displays: every block reads back as the
      id, name, holder flag and claim count of its campaign, in order. */
  lemma {:induction false} DecodeRenderedCampaigns(campaigns: seq<CampaignQueryResponse>)
    ensures DecodeBlocks(RenderCampaigns(campaigns)) == Some(DisplayedAll(campaigns))
  {
    if campaigns != [] {
      var init := campaigns[..|campaigns| - 1];
      var last := campaigns[|campaigns| - 1];
      DecodeRenderedCampaigns(init);
      DecodeBlockOf(last);
      DecodeBlocksAppend(RenderCampaigns(init), CampaignNodes(last));
    }
  }
}
