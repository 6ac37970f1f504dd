/** The submission pipeline of the `/submit` handler: validate the form,
    choose the single-campaign or the space path, query the remote service,
    and render the result or the error. The remote service is a pair of
    function parameters; every query the model sends is recorded, in order,
    in an `issued` out-parameter. */
module Submission {
  import opened Wrappers
  import opened Strconv
  import opened CanvasKit
  import opened Presenter

  /** HTTP status codes the handler produces: an explicit 400 on every error
      rendering, the implicit 200 of a plain write otherwise. */
  const STATUS_OK := 200
  const STATUS_BAD_REQUEST := 400

  /** The `http.ResponseWriter` the handler writes to: the status, once one
      has been written, and the canvas envelopes written so far, in order. */
  datatype ResponseWriter = ResponseWriter(status: Option<int>, bodies: seq<seq<Component>>)

  /** A response before the handler has written anything. */
  const UNWRITTEN := ResponseWriter(None, [])

  /** `w.WriteHeader(code)`: only the first status written takes effect. */
  function WriteHeader(w: ResponseWriter, code: int): ResponseWriter
  {
    if w.status.Some? then w else w.(status := Some(code))
  }

  /** `w.Write(body)`: a write before any status implies status 200. */
  function Write(w: ResponseWriter, body: seq<Component>): ResponseWriter
  {
    var w' := WriteHeader(w, STATUS_OK);
    w'.(bodies := w'.bodies + [body])
  }

  /** The status of a response is fixed by its first write: neither later
      status codes nor later bodies change it, and bodies are only appended. */
  lemma FirstStatusWins(w: ResponseWriter, code: int, body: seq<Component>)
    ensures WriteHeader(w, code).status == if w.status.Some? then w.status else Some(code)
    ensures Write(w, body).status == if w.status.Some? then w.status else Some(STATUS_OK)
    ensures WriteHeader(w, code).bodies == w.bodies
    ensures Write(w, body).bodies == w.bodies + [body]
  {
  }

  /** `RenderErrorCanvas(w, err)` on what has been written so far. */
  function RenderError(w: ResponseWriter, err: Option<Error>): ResponseWriter
  {
    Write(WriteHeader(w, STATUS_BAD_REQUEST), ErrorComponents(err))
  }

  /** An error rendered as the handler's first and only write. */
  function ErrorResponse(err: Option<Error>): ResponseWriter
  {
    RenderError(UNWRITTEN, err)
  }

  /** A success rendering as the handler's first and only write. */
  function SuccessResponse(campaigns: seq<CampaignQueryResponse>): ResponseWriter
  {
    Write(UNWRITTEN, SuccessComponents(campaigns))
  }

  /** One error canvas rendered after another, in the order given. */
  function RenderErrors(w: ResponseWriter, errs: seq<Error>): ResponseWriter
  {
    if errs == [] then w
    else RenderError(RenderErrors(w, errs[..|errs| - 1]), Some(errs[|errs| - 1]))
  }

  /** The error canvas of one failed query. */
  function ErrorCanvas(e: Error): seq<Component>
  {
    ErrorComponents(Some(e))
  }

  /** The error canvas of each error, in order. */
  function ErrorBodies(errs: seq<Error>): (bodies: seq<seq<Component>>)
    ensures |bodies| == |errs|
    ensures forall k | 0 <= k < |errs| :: bodies[k] == ErrorComponents(Some(errs[k]))
  {
    Apply(ErrorCanvas, errs)
  }

  /** `f` applied to each element, in order. */
  function Apply<A, B>(f: A -> B, s: seq<A>): (r: seq<B>)
    ensures |r| == |s|
    ensures forall k | 0 <= k < |s| :: r[k] == f(s[k])
  {
    seq(|s|, k requires 0 <= k < |s| => f(s[k]))
  }

  lemma ApplyAppend<A, B>(f: A -> B, a: seq<A>, b: seq<A>)
    ensures Apply(f, a + b) == Apply(f, a) + Apply(f, b)
  {
  }

  /** `s` without the element at index `j`. */
  function RemoveAt<T>(s: seq<T>, j: nat): (r: seq<T>)
    requires j < |s|
    ensures multiset(r) == multiset(s) - multiset{s[j]}
  {
    assert s == s[..j] + [s[j]] + s[j + 1..];
    s[..j] + s[j + 1..]
  }

  /** Removing an element removes its image, up to order. */
  lemma ApplyRemoveAt<A, B>(f: A -> B, s: seq<A>, j: nat)
    requires j < |s|
    ensures multiset(Apply(f, s)) == multiset(Apply(f, RemoveAt(s, j))) + multiset{f(s[j])}
  {
    assert s == s[..j] + [s[j]] + s[j + 1..];
    ApplyAppend(f, s[..j] + [s[j]], s[j + 1..]);
    ApplyAppend(f, s[..j], [s[j]]);
    ApplyAppend(f, s[..j], s[j + 1..]);
  }

  /** Applying a function to two permutations of a sequence gives two
      permutations of the images. */
  lemma {:induction false} ApplyPermutation<A, B>(f: A -> B, a: seq<A>, b: seq<A>)
    requires multiset(a) == multiset(b)
    ensures multiset(Apply(f, a)) == multiset(Apply(f, b))
  {
    if a == [] {
      assert |b| == |multiset(b)| == 0;
    } else {
      var init, x := a[..|a| - 1], a[|a| - 1];
      assert a == init + [x];
      assert x in multiset(b);
      var j :| 0 <= j < |b| && b[j] == x;
      assert multiset(init) == multiset(a) - multiset{x};
      ApplyPermutation(f, init, RemoveAt(b, j));
      ApplyAppend(f, init, [x]);
      ApplyRemoveAt(f, b, j);
      assert Apply(f, [x]) == [f(x)];
      calc {
        multiset(Apply(f, a));
        multiset(Apply(f, init) + [f(x)]);
        multiset(Apply(f, init)) + multiset{f(x)};
        multiset(Apply(f, RemoveAt(b, j))) + multiset{f(x)};
        multiset(Apply(f, b));
      }
    }
  }

  /** Rendering errors appends one error canvas per error, and sets status
      400 unless a status was already written or there was no error. */
  lemma {:induction false} RenderErrorsEffect(w: ResponseWriter, errs: seq<Error>)
    ensures RenderErrors(w, errs).bodies == w.bodies + ErrorBodies(errs)
    ensures RenderErrors(w, errs).status ==
              if errs == [] || w.status.Some? then w.status else Some(STATUS_BAD_REQUEST)
  {
    if errs != [] {
      var init := errs[..|errs| - 1];
      RenderErrorsEffect(w, init);
      assert ErrorBodies(errs) == ErrorBodies(init) + [ErrorComponents(Some(errs[|errs| - 1]))];
    }
  }

  /** A query sent to the remote service. */
  datatype Query = CampaignQuery(id: string, address: string) | SpaceQuery(spaceId: Int64)

  /** Why a submission is rejected before any query. */
  datatype Rejection = MalformedSpaceId(numError: NumError) | MissingAddress | MissingTarget

  /** The `err` value handed to `RenderErrorCanvas` for a rejection: the
      parse error, or nil, because `err` still holds the nil of the last
      successful step when the address or target checks fail. */
  function RejectionError(r: Rejection): (err: Option<Error>)
    ensures err == None <==> !r.MalformedSpaceId?
  {
    match r
    case MalformedSpaceId(e) => Some(ParseError(e))
    case MissingAddress => None
    case MissingTarget => None
  }

  /** The `spaceId` field as the handler reads it: blank means 0, anything
      else goes through `strconv.Atoi`. */
  function ParseSpaceId(s: string): (r: Result<Int64, NumError>)
    ensures s == "" ==> r == Success(0)
  {
    if s == "" then Success(0) else Atoi(s)
  }

  /** A submission that passed validation. */
  datatype Validated = Validated(address: string, campaignId: string, spaceId: Int64)

  /** The three checks, in the handler's order: the space id must parse,
      then the address must be present, then a target must be present. */
  function Validate(res: SubmitResponse): (r: Result<Validated, Rejection>)
    // A malformed space id is reported whatever the other fields hold.
    ensures ParseSpaceId(res.spaceId).Failure? ==>
              r == Failure(MalformedSpaceId(ParseSpaceId(res.spaceId).error))
    // A missing address is reported exactly when the space id parsed and
    // the address is empty.
    ensures r == Failure(MissingAddress) <==>
              ParseSpaceId(res.spaceId).Success? && res.userAddress == ""
    // A missing target is reported only once both earlier checks passed.
    ensures r == Failure(MissingTarget) <==>
              ParseSpaceId(res.spaceId).Success? && res.userAddress != ""
              && ParseSpaceId(res.spaceId).value == 0 && res.campaignId == ""
    ensures r.Success? ==>
              r.value == Validated(res.userAddress, res.campaignId, ParseSpaceId(res.spaceId).value)
  {
    var parsed := ParseSpaceId(res.spaceId);
    if parsed.Failure? then Failure(MalformedSpaceId(parsed.error))
    else if res.userAddress == "" then Failure(MissingAddress)
    else if parsed.value == 0 && res.campaignId == "" then Failure(MissingTarget)
    else Success(Validated(res.userAddress, res.campaignId, parsed.value))
  }

  /** Validation accepts exactly the submissions with an address, a space id
      that is blank or a decimal literal within 64 bits, and a campaign id or
      a non-zero space id; a signed space id such as "-3" is a target. */
  lemma ValidateAcceptsExactly(res: SubmitResponse)
    ensures Validate(res).Success? <==>
              && res.userAddress != ""
              && (res.spaceId == "" || (IsDecimalLiteral(res.spaceId)
                                        && MIN_INT64 <= LiteralValue(res.spaceId) <= MAX_INT64))
              && (res.campaignId != "" || (res.spaceId != "" && LiteralValue(res.spaceId) != 0))
  {
    if res.spaceId != "" {
      AtoiAcceptsDecimalLiterals(res.spaceId);
    }
  }

  /** The missing-address and missing-target rejections are rendered with a
      nil error, so they show the placeholder message. */
  lemma NilRejectionsShowUnknownError(r: Rejection)
    requires !r.MalformedSpaceId?
    ensures ErrorResponse(RejectionError(r)).bodies[0][0].text == ERROR_PREFIX + UNKNOWN_ERROR
  {
  }

  /** Concrete consequences of the order of the checks: a malformed space id
      wins over a missing address and over a campaign id; "-3" is a target;
      "+0" with no campaign id is no target. */
  lemma ValidationOrderExamples()
    ensures Validate(SubmitResponse("", "7", "x1")) == Failure(MalformedSpaceId(NumError("x1", ErrSyntax)))
    ensures Validate(SubmitResponse("", "", "-3")) == Failure(MissingAddress)
    ensures Validate(SubmitResponse("0xab", "", "-3")) == Success(Validated("0xab", "", -3))
    ensures Validate(SubmitResponse("0xab", "", "+0")) == Failure(MissingTarget)
    ensures Dispatch(Validate(SubmitResponse("0xab", "7", "5")).value) == CampaignPath("7")
  {
    assert "x1"[1] == '1';
    AtoiAcceptsDecimalLiterals("-3");
    assert DigitsValue("3") == 3 by { assert "3"[..0] == ""; }
    AtoiAcceptsDecimalLiterals("+0");
    assert DigitsValue("0") == 0 by { assert "0"[..0] == ""; }
    AtoiAcceptsDecimalLiterals("5");
  }

  /** The path a validated submission takes. */
  datatype Target = CampaignPath(campaignId: string) | SpacePath(spaceId: Int64)

  /** A campaign id selects the campaign path even when a space id is given. */
  function Dispatch(v: Validated): (t: Target)
    ensures t.CampaignPath? <==> v.campaignId != ""
    ensures t.CampaignPath? ==> t.campaignId == v.campaignId
    ensures t.SpacePath? ==> t.spaceId == v.spaceId
  {
    if v.campaignId != "" then CampaignPath(v.campaignId) else SpacePath(v.spaceId)
  }

  /** The space path only ever queries a non-zero space. */
  lemma SpacePathHasSpace(res: SubmitResponse)
    requires Validate(res).Success?
    ensures Dispatch(Validate(res).value).SpacePath? ==>
              res.campaignId == "" && Dispatch(Validate(res).value).spaceId != 0
  {
  }

  /** The campaign query for each member id, in member order. */
  function MemberQueries(ids: seq<string>, address: string): (qs: seq<Query>)
    ensures |qs| == |ids|
    ensures forall i | 0 <= i < |ids| :: qs[i] == CampaignQuery(ids[i], address)
  {
    seq(|ids|, i requires 0 <= i < |ids| => CampaignQuery(ids[i], address))
  }

  /** What the remote service answers for each member id. */
  function Resolve(ids: seq<string>, address: string,
                   queryCampaign: (string, string) -> Result<CampaignQueryResponse, Error>)
    : (rs: seq<Result<CampaignQueryResponse, Error>>)
    ensures |rs| == |ids|
    ensures forall i | 0 <= i < |ids| :: rs[i] == queryCampaign(ids[i], address)
  {
    seq(|ids|, i requires 0 <= i < |ids| => queryCampaign(ids[i], address))
  }

  /** The successful answers, in order. */
  function Successes<T, E>(rs: seq<Result<T, E>>): seq<T>
  {
    if rs == [] then []
    else Successes(rs[..|rs| - 1]) + (if rs[|rs| - 1].Success? then [rs[|rs| - 1].value] else [])
  }

  /** The failed answers, in order. */
  function Failures<T, E>(rs: seq<Result<T, E>>): seq<E>
  {
    if rs == [] then []
    else Failures(rs[..|rs| - 1]) + (if rs[|rs| - 1].Failure? then [rs[|rs| - 1].error] else [])
  }

  /** A value is among the successes exactly when some answer succeeded with it. */
  lemma {:induction false} SuccessesMembership<T, E>(rs: seq<Result<T, E>>, x: T)
    ensures x in Successes(rs) <==> exists i | 0 <= i < |rs| :: rs[i] == Success(x)
  {
    if rs != [] {
      var init := rs[..|rs| - 1];
      SuccessesMembership(init, x);
      if x in Successes(init) {
        var i :| 0 <= i < |init| && init[i] == Success(x);
        assert rs[i] == Success(x);
      }
      if exists i | 0 <= i < |rs| :: rs[i] == Success(x) {
        var i :| 0 <= i < |rs| && rs[i] == Success(x);
        if i < |init| {
          assert init[i] == Success(x);
        }
      }
    }
  }

  /** Every answer is either kept or dropped: with 2 of 5 members failing,
      3 records remain. */
  lemma {:induction false} SuccessesAndFailures<T, E>(rs: seq<Result<T, E>>)
    ensures |Successes(rs)| + |Failures(rs)| == |rs|
  {
    if rs != [] {
      SuccessesAndFailures(rs[..|rs| - 1]);
    }
  }

  /** Taking one more member extends its queries and answers by one each. */
  lemma MemberStep(ids: seq<string>, address: string,
                   queryCampaign: (string, string) -> Result<CampaignQueryResponse, Error>, i: nat)
    requires i < |ids|
    ensures MemberQueries(ids[..i + 1], address) == MemberQueries(ids[..i], address) + [CampaignQuery(ids[i], address)]
    ensures Resolve(ids[..i + 1], address, queryCampaign) ==
              Resolve(ids[..i], address, queryCampaign) + [queryCampaign(ids[i], address)]
  {
  }

  /** One more answer extends the successes or the failures by that answer. */
  lemma AnswersSnoc<T, E>(rs: seq<Result<T, E>>, r: Result<T, E>)
    ensures Successes(rs + [r]) == Successes(rs) + (if r.Success? then [r.value] else [])
    ensures Failures(rs + [r]) == Failures(rs) + (if r.Failure? then [r.error] else [])
  {
    assert (rs + [r])[..|rs|] == rs;
  }

  /** Rendering one more error renders it after the earlier ones. */
  lemma RenderErrorsSnoc(w: ResponseWriter, errs: seq<Error>, e: Error)
    ensures RenderErrors(w, errs + [e]) == RenderError(RenderErrors(w, errs), Some(e))
  {
    assert (errs + [e])[..|errs|] == errs;
  }

  /** One campaign query, recorded in the log as it is sent. */
  method AskCampaign(id: string, address: string,
                     queryCampaign: (string, string) -> Result<CampaignQueryResponse, Error>,
                     issued: seq<Query>)
    returns (answer: Result<CampaignQueryResponse, Error>, issued': seq<Query>)
    ensures answer == queryCampaign(id, address)
    ensures issued' == issued + [CampaignQuery(id, address)]
  {
    issued' := issued + [CampaignQuery(id, address)];
    answer := queryCampaign(id, address);
  }

  /** One space query, recorded in the log as it is sent. */
  method AskSpace(spaceId: Int64, querySpace: Int64 -> Result<SpaceQueryResponse, Error>,
                  issued: seq<Query>)
    returns (answer: Result<SpaceQueryResponse, Error>, issued': seq<Query>)
    ensures answer == querySpace(spaceId)
    ensures issued' == issued + [SpaceQuery(spaceId)]
  {
    issued' := issued + [SpaceQuery(spaceId)];
    answer := querySpace(spaceId);
  }

  /** `RenderErrorCanvas`: status 400 unless a status was written before,
      and the three error components appended as one more body. */
  method RenderErrorCanvas(w: ResponseWriter, err: Option<Error>) returns (w': ResponseWriter)
    ensures w' == RenderError(w, err)
    ensures w'.status == if w.status.Some? then w.status else Some(STATUS_BAD_REQUEST)
    ensures w'.bodies == w.bodies + [ErrorComponents(err)]
  {
    var components := BuildErrorComponents(err);
    w' := WriteHeader(w, STATUS_BAD_REQUEST);
    w' := Write(w', components);
  }

  /** Resolves every member of a space once and collects the campaigns that
      resolved. A member whose query failed is dropped from the campaigns,
      and its goroutine renders the error to the same response writer. The
      handler resolves the members concurrently and appends under a mutex, so
      neither the order of the queries, nor that of the campaigns, nor that
      of the error writes is promised: all three are stated up to
      permutation. */
  method CollectCampaigns(memberIds: seq<string>, address: string,
                          queryCampaign: (string, string) -> Result<CampaignQueryResponse, Error>,
                          w: ResponseWriter)
    returns (campaigns: seq<CampaignQueryResponse>, issued: seq<Query>, w': ResponseWriter)
    ensures multiset(issued) == multiset(MemberQueries(memberIds, address))
    ensures multiset(campaigns) == multiset(Successes(Resolve(memberIds, address, queryCampaign)))
    ensures exists failed: seq<Error> ::
              multiset(failed) == multiset(Failures(Resolve(memberIds, address, queryCampaign)))
              && w' == RenderErrors(w, failed)
  {
    campaigns, issued, w' := [], [], w;
    ghost var failed: seq<Error> := [];
    for i := 0 to |memberIds|
      invariant issued == MemberQueries(memberIds[..i], address)
      invariant campaigns == Successes(Resolve(memberIds[..i], address, queryCampaign))
      invariant failed == Failures(Resolve(memberIds[..i], address, queryCampaign))
      invariant w' == RenderErrors(w, failed)
    {
      ghost var rs := Resolve(memberIds[..i], address, queryCampaign);
      MemberStep(memberIds, address, queryCampaign, i);
      var campaignInfo;
      campaignInfo, issued := AskCampaign(memberIds[i], address, queryCampaign, issued);
      AnswersSnoc(rs, campaignInfo);
      if campaignInfo.Failure? {
        RenderErrorsSnoc(w, failed, campaignInfo.error);
        w' := RenderErrorCanvas(w', Some(campaignInfo.error));
        failed := failed + [campaignInfo.error];
      } else {
        campaigns := campaigns + [campaignInfo.value];
      }
    }
    assert memberIds[..|memberIds|] == memberIds;
    assert multiset(failed) == multiset(Failures(Resolve(memberIds, address, queryCampaign)));
  }

  /** `body` renders, in some order, exactly the given campaigns. */
  ghost predicate IsSuccessRenderingOf(body: seq<Component>, campaigns: seq<CampaignQueryResponse>)
  {
    exists rendered: seq<CampaignQueryResponse> ::
      multiset(rendered) == multiset(campaigns) && body == SuccessComponents(rendered)
  }

  /** Whatever the order, a success rendering of n campaigns has 4n + 1
      nodes ending with the "Query Again" button, shows the block of every
      campaign, and its n blocks are, counted with multiplicity, exactly the
      blocks of the campaigns. */
  lemma SuccessRenderingShape(body: seq<Component>, campaigns: seq<CampaignQueryResponse>)
    requires IsSuccessRenderingOf(body, campaigns)
    ensures |body| == 4 * |campaigns| + 1
    ensures body[4 * |campaigns|] == QUERY_AGAIN_BUTTON
    ensures forall c | c in campaigns ::
              exists j: nat | j < |campaigns| :: NthBlock(body, j) == CampaignNodes(c)
    ensures multiset(seq(|campaigns|, j requires 0 <= j < |campaigns| => NthBlock(body, j)))
            == multiset(Apply(CampaignNodes, campaigns))
  {
    var rendered :| multiset(rendered) == multiset(campaigns) && body == SuccessComponents(rendered);
    assert |rendered| == |multiset(rendered)| == |campaigns|;
    SuccessComponentsShape(rendered);
    SuccessBlocksPermutation(rendered, campaigns);
    forall c | c in campaigns
      ensures exists j: nat | j < |campaigns| :: NthBlock(body, j) == CampaignNodes(c)
    {
      assert c in multiset(rendered);
      var j :| 0 <= j < |rendered| && rendered[j] == c;
      RenderCampaignsAt(rendered, j);
      SliceOfConcatLeft(RenderCampaigns(rendered), [QUERY_AGAIN_BUTTON], 4 * j, 4 * j + 4);
      assert NthBlock(body, j) == CampaignNodes(c);
    }
  }

  /** The blocks of a success rendering, in order, are the blocks of its
      campaigns in input order. */
  lemma SuccessBlocks(campaigns: seq<CampaignQueryResponse>)
    ensures |SuccessComponents(campaigns)| == 4 * |campaigns| + 1
    ensures seq(|campaigns|, j requires 0 <= j < |campaigns| => NthBlock(SuccessComponents(campaigns), j))
            == Apply(CampaignNodes, campaigns)
  {
    RenderCampaignsEach(campaigns);
    forall j | 0 <= j < |campaigns|
      ensures NthBlock(SuccessComponents(campaigns), j) == CampaignNodes(campaigns[j])
    {
      NthBlockOfFront(RenderCampaigns(campaigns), [QUERY_AGAIN_BUTTON], j);
    }
  }

  /** Rendering a permutation of the campaigns gives a permutation of their blocks. */
  lemma SuccessBlocksPermutation(rendered: seq<CampaignQueryResponse>, campaigns: seq<CampaignQueryResponse>)
    requires multiset(rendered) == multiset(campaigns)
    ensures |SuccessComponents(rendered)| == 4 * |campaigns| + 1
    ensures multiset(seq(|campaigns|, j requires 0 <= j < |campaigns| => NthBlock(SuccessComponents(rendered), j)))
            == multiset(Apply(CampaignNodes, campaigns))
  {
    assert |rendered| == |multiset(rendered)| == |campaigns|;
    SuccessBlocks(rendered);
    ApplyPermutation(CampaignNodes, rendered, campaigns);
  }

  /** The success canvas of a space with no resolved member is the
      "Query Again" button alone. With no member at all that is the whole
      response (`EmptySpaceResponse`); otherwise it follows the error canvases
      of the failed members (`SpaceResponseShape`). */
  lemma EmptyRenderingIsButtonOnly(body: seq<Component>)
    requires IsSuccessRenderingOf(body, [])
    ensures body == [QUERY_AGAIN_BUTTON]
  {
    var none: seq<CampaignQueryResponse> := [];
    var rendered :| multiset(rendered) == multiset(none) && body == SuccessComponents(rendered);
    assert |rendered| == 0;
  }

  /** What the space path writes once the space is found: one error canvas
      per failed member, in some order, then the success canvas of the
      members that resolved, in some order. */
  ghost predicate IsSpaceResponse(response: ResponseWriter,
                                  rs: seq<Result<CampaignQueryResponse, Error>>)
  {
    exists failed: seq<Error>, rendered: seq<CampaignQueryResponse> ::
      && multiset(failed) == multiset(Failures(rs))
      && multiset(rendered) == multiset(Successes(rs))
      && response == Write(RenderErrors(UNWRITTEN, failed), SuccessComponents(rendered))
  }

  /** A space without members gets the button alone, with status 200. */
  lemma EmptySpaceResponse(response: ResponseWriter)
    requires IsSpaceResponse(response, [])
    ensures response == Write(UNWRITTEN, [QUERY_AGAIN_BUTTON])
    ensures response == ResponseWriter(Some(STATUS_OK), [[QUERY_AGAIN_BUTTON]])
  {
    var none: seq<Result<CampaignQueryResponse, Error>> := [];
    var failed, rendered :|
      && multiset(failed) == multiset(Failures(none))
      && multiset(rendered) == multiset(Successes(none))
      && response == Write(RenderErrors(UNWRITTEN, failed), SuccessComponents(rendered));
    assert |failed| == 0 && |rendered| == 0;
    assert RenderErrors(UNWRITTEN, failed) == UNWRITTEN;
    assert SuccessComponents(rendered) == [QUERY_AGAIN_BUTTON];
  }

  /** The client of the space path gets status 400 as soon as one member
      failed, and 200 only when all resolved. The response holds one error
      canvas per failed member, in some order, followed by the success
      canvas of the others. */
  lemma SpaceResponseShape(response: ResponseWriter,
                           rs: seq<Result<CampaignQueryResponse, Error>>)
    requires IsSpaceResponse(response, rs)
    ensures response.status ==
              Some(if |Failures(rs)| > 0 then STATUS_BAD_REQUEST else STATUS_OK)
    ensures |response.bodies| == |Failures(rs)| + 1
    ensures multiset(response.bodies[..|Failures(rs)|]) == multiset(ErrorBodies(Failures(rs)))
    ensures IsSuccessRenderingOf(response.bodies[|Failures(rs)|], Successes(rs))
  {
    var failed, rendered :|
      && multiset(failed) == multiset(Failures(rs))
      && multiset(rendered) == multiset(Successes(rs))
      && response == Write(RenderErrors(UNWRITTEN, failed), SuccessComponents(rendered));
    SpaceWriteShape(failed, Failures(rs), SuccessComponents(rendered));
    ApplyPermutation(ErrorCanvas, failed, Failures(rs));
    assert response.bodies[..|Failures(rs)|] == ErrorBodies(failed);
    assert IsSuccessRenderingOf(SuccessComponents(rendered), Successes(rs));
  }

  /** The writes of the space path for one order of the failures. */
  lemma SpaceWriteShape(failed: seq<Error>, errs: seq<Error>, success: seq<Component>)
    requires multiset(failed) == multiset(errs)
    ensures var response := Write(RenderErrors(UNWRITTEN, failed), success);
            && response.status == Some(if |errs| > 0 then STATUS_BAD_REQUEST else STATUS_OK)
            && response.bodies == ErrorBodies(failed) + [success]
            && |ErrorBodies(failed)| == |errs|
  {
    assert |failed| == |multiset(failed)| == |errs|;
    RenderErrorsEffect(UNWRITTEN, failed);
  }

  /** `Submit`, from the decoded `input_values` on. */
  method Submit(res: SubmitResponse,
                queryCampaign: (string, string) -> Result<CampaignQueryResponse, Error>,
                querySpace: Int64 -> Result<SpaceQueryResponse, Error>)
    returns (response: ResponseWriter, issued: seq<Query>)
    // A rejected submission is rendered as an error and sends no query.
    ensures Validate(res).Failure? ==>
              issued == [] && response == ErrorResponse(RejectionError(Validate(res).error))
    // The campaign path sends one query and renders its one campaign or its error.
    ensures Validate(res).Success? && res.campaignId != "" ==>
              && issued == [CampaignQuery(res.campaignId, res.userAddress)]
              && response == match queryCampaign(res.campaignId, res.userAddress)
                             case Success(info) => SuccessResponse([info])
                             case Failure(e) => ErrorResponse(Some(e))
    // The space path looks the space up first; a failed lookup is fatal.
    ensures Validate(res).Success? && res.campaignId == "" ==>
              var spaceId := Validate(res).value.spaceId;
              && |issued| >= 1 && issued[0] == SpaceQuery(spaceId)
              && (querySpace(spaceId).Failure? ==>
                    issued == [SpaceQuery(spaceId)] && response == ErrorResponse(Some(querySpace(spaceId).error)))
    // Otherwise every member is queried once, each failure writes its error
    // canvas, and the successes are written last.
    ensures Validate(res).Success? && res.campaignId == "" ==>
              var spaceId := Validate(res).value.spaceId;
              querySpace(spaceId).Success? ==>
                var members := MemberIds(querySpace(spaceId).value);
                && multiset(issued[1..]) == multiset(MemberQueries(members, res.userAddress))
                && IsSpaceResponse(response, Resolve(members, res.userAddress, queryCampaign))
  {
    issued, response := [], UNWRITTEN;
    var err: Option<Error> := None;
    var spaceIdInt: Int64 := 0;
    if res.spaceId != "" {
      var parsed := Atoi(res.spaceId);
      if parsed.Failure? {
        err := Some(ParseError(parsed.error));
        response := RenderErrorCanvas(response, err);
        return;
      }
      spaceIdInt, err := parsed.value, None;
    }

    if res.userAddress == "" {
      response := RenderErrorCanvas(response, err);
      return;
    }

    if spaceIdInt == 0 && res.campaignId == "" {
      response := RenderErrorCanvas(response, err);
      return;
    }

    if res.campaignId != "" {
      var campaignInfo;
      campaignInfo, issued := AskCampaign(res.campaignId, res.userAddress, queryCampaign, issued);
      if campaignInfo.Failure? {
        response := RenderErrorCanvas(response, Some(campaignInfo.error));
        return;
      }
      var components := BuildCampaignComponents([campaignInfo.value]);
      components := components + [QUERY_AGAIN_BUTTON];
      response := Write(response, components);
    } else {
      var spaceInfo;
      spaceInfo, issued := AskSpace(spaceIdInt, querySpace, issued);
      if spaceInfo.Failure? {
        response := RenderErrorCanvas(response, Some(spaceInfo.error));
        return;
      }
      var members := MemberIds(spaceInfo.value);
      var campaigns, memberQueries, written := CollectCampaigns(members, res.userAddress, queryCampaign, response);
      issued := issued + memberQueries;
      ghost var failed :| multiset(failed) == multiset(Failures(Resolve(members, res.userAddress, queryCampaign)))
                          && written == RenderErrors(UNWRITTEN, failed);
      var components := BuildCampaignComponents(campaigns);
      components := components + [QUERY_AGAIN_BUTTON];
      response := Write(written, components);
      assert issued[1..] == memberQueries;
      assert response == Write(RenderErrors(UNWRITTEN, failed), SuccessComponents(campaigns));
    }
  }
}
