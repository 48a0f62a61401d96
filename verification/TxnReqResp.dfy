/** Answers on a request's response channel (account/txnReqResp.go) and how `eval` reads one (the first half of
    `eval` in account/txnProcessor.go). */
module TxnReqResp {
  import opened Wrappers
  import opened TxnError
  import opened TxnFailure

  /** What is put on a response channel: a status given by the processor itself (`RespondWithStatus`) or what a Near
      call returned (`Respond`). */
  datatype Answer = Own(status: Status) | Node(resp: Json, err: Option<string>)

  /** The struct txnResp, without the time stamp that only the back-off of zero milliseconds looks at. */
  datatype TxnResp = TxnResp(status: Status, resp: Json, err: Option<string>)

  function Struct(a: Answer): TxnResp {
    match a
    case Own(status) => TxnResp(status, Null, StatusError(status))
    case Node(resp, err) => TxnResp(AnyStatus, resp, err)
  }

  /** How `eval` judges an answer: a panic, a success, or a status with a note whether the request is from now on to
      be retransmitted. */
  datatype Judgement = Panics | Succeeds | Judged(status: Status, marks: bool)

  function Judge(a: Answer): Judgement {
    var resp := Struct(a);
    match resp.err
    case None => (
      match IsTxnResponseFailure(resp.resp)
      case Malformed => Panics
      case BadResponse => Judged(UnhandledError, false)
      case Success => Succeeds
      case Failure(tree) => (
        match FirstMatch(STATUS_MAPPING, tree)
        case Panic => Panics
        case Found(status) => Judged(status, false)
      )
    )
    case Some(e) =>
      if resp.status == NearNonceError then Judged(NearNonceError, true)
      else if resp.status != AnyStatus then Judged(resp.status, false)
      else if Contains(e, "InvalidNonce:map") then Judged(NearNonceError, false)
      else if Contains(e, "NonceTooLarge") then Judged(NearNonceTooLarge, false)
      else if Contains(e, "Server error: Timeout") then Judged(NearTimeOutError, true)
      else Judged(UnhandledError, false)
  }

  /** The statuses that the processor itself puts on a response channel, apart from the extra answer at the end of a
      retransmitted request. */
  predicate IsOwnStatus(status: Status) {
    status.TimeOutError3? || status.EthNonceTooLow? || status.Exhausted? || status.Reorder? || status.NearNonceError?
  }

  /** The statuses that a node's answer can be judged as. */
  predicate IsNodeStatus(status: Status) {
    || status.AnyStatus? || status.EthNonceError? || status.AuroraContractPanicked? || status.UnhandledError?
    || status.NearNonceError? || status.NearNonceTooLarge? || status.NearTimeOutError?
  }

  /** What the processor relies on: its own statuses are kept, an error is always judged, and only a failed lookup of
      the Near nonce or a timed-out call marks a request for retransmission. */
  ghost predicate SoundJudge(judge: Answer -> Judgement) {
    && (forall status :: IsOwnStatus(status) ==> judge(Own(status)) == Judged(status, status == NearNonceError))
    && (forall resp, err :: judge(Node(resp, err)).Judged? ==>
          && IsNodeStatus(judge(Node(resp, err)).status)
          && judge(Node(resp, err)).marks == (judge(Node(resp, err)).status == NearTimeOutError))
    && (forall resp, e :: judge(Node(resp, Some(e))).Judged?)
  }

  lemma JudgeIsSound()
    ensures SoundJudge(Judge)
  {
    forall resp, err | Judge(Node(resp, err)).Judged?
      ensures IsNodeStatus(Judge(Node(resp, err)).status)
      ensures Judge(Node(resp, err)).marks == (Judge(Node(resp, err)).status == NearTimeOutError)
    {
      if err.None? && IsTxnResponseFailure(resp).Failure? {
        ShippedTable(IsTxnResponseFailure(resp).tree);
      }
    }
  }

  /** A nonce error of the Ethereum side is only ever read from the text at the failure path of a Near result. */
  lemma EthNonceErrorComesFromFailureTree(resp: Json, err: Option<string>)
    ensures Judge(Node(resp, err)) == Judged(EthNonceError, false)
       <==> && err.None?
            && IsTxnResponseFailure(resp).Failure?
            && var end := WalkTo(FAILURE_PATH, IsTxnResponseFailure(resp).tree);
            && end.At? && end.leaf.Text? && Contains(end.leaf.text, "ERR_INCORRECT_NONCE")
    ensures Judge(Node(resp, err)) != Judged(EthNonceError, true)
  {
    if err.None? && IsTxnResponseFailure(resp).Failure? {
      ShippedTable(IsTxnResponseFailure(resp).tree);
    }
  }

  /** The extra answer pushed when a retransmitted request turns out to have succeeded would crash `eval`, were it ever
      received. */
  lemma ExtraAnswerMustNotBeReceived()
    ensures Judge(Own(AnyStatus)).Panics?
  {
  }


  // ---------------------------------------------------------------- every answer of the node

  predicate HasMember(j: Json, name: string) {
    j.Object? && name in j.members
  }

  /** The status object of a result. */
  predicate HasStatusObject(resp: Json) {
    HasMember(resp, "status") && resp.members["status"].Object?
  }

  /** A call succeeded if and only if there is no error and the status object of the result has a success value and no
      failure. */
  lemma SuccessIsASuccessValue(resp: Json, err: Option<string>)
    ensures Judge(Node(resp, err)) == Succeeds
       <==> && err.None?
            && HasStatusObject(resp)
            && !HasMember(resp.members["status"], "Failure")
            && HasMember(resp.members["status"], "SuccessValue")
  {
    if err.None? && IsTxnResponseFailure(resp).Failure? {
      ShippedTable(IsTxnResponseFailure(resp).tree);
    }
  }

  /** What a result without an error is judged as otherwise: unhandled if it has neither a success value nor a failure;
      by the text at the failure path if it has a failure; and a panic where a type assertion fails. */
  lemma ResultsAreJudged(resp: Json)
    ensures Judge(Node(resp, None)) == Judged(UnhandledError, false)
       <==> || (resp.Object? && !HasMember(resp, "status"))
            || (HasStatusObject(resp) && !HasMember(resp.members["status"], "Failure")
                && !HasMember(resp.members["status"], "SuccessValue"))
    ensures HasStatusObject(resp) && HasMember(resp.members["status"], "Failure") ==>
              var end := WalkTo(FAILURE_PATH, resp.members["status"].members["Failure"]);
              && (Judge(Node(resp, None)) == Panics <==> end.Stuck?)
              && (Judge(Node(resp, None)) == Judged(EthNonceError, false)
                  <==> end.At? && end.leaf.Text? && Contains(end.leaf.text, "ERR_INCORRECT_NONCE"))
              && (Judge(Node(resp, None)) == Judged(AuroraContractPanicked, false)
                  <==> end.At? && end.leaf.Text? && !Contains(end.leaf.text, "ERR_INCORRECT_NONCE"))
              && (Judge(Node(resp, None)) == Judged(AnyStatus, false)
                  <==> end.Lost? || (end.At? && !end.leaf.Text?))
    ensures !resp.Object? || (HasMember(resp, "status") && !HasStatusObject(resp)) ==> Judge(Node(resp, None)) == Panics
  {
    if IsTxnResponseFailure(resp).Failure? {
      ShippedTable(IsTxnResponseFailure(resp).tree);
    }
  }

  /** What an error is judged as, whatever comes with it: the first text that it mentions decides. */
  lemma ErrorsAreJudged(resp: Json, e: string)
    ensures var j := Judge(Node(resp, Some(e)));
            && (j == Judged(NearNonceError, false) <==> Contains(e, "InvalidNonce:map"))
            && (j == Judged(NearNonceTooLarge, false)
                <==> !Contains(e, "InvalidNonce:map") && Contains(e, "NonceTooLarge"))
            && (j == Judged(NearTimeOutError, true)
                <==> !Contains(e, "InvalidNonce:map") && !Contains(e, "NonceTooLarge")
                     && Contains(e, "Server error: Timeout"))
            && (j == Judged(UnhandledError, false)
                <==> !Contains(e, "InvalidNonce:map") && !Contains(e, "NonceTooLarge")
                     && !Contains(e, "Server error: Timeout"))
  {
  }
}
