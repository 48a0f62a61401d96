/** The constant tables of account/txnError.go: what each status makes `eval` do, and how a Near failure
    tree is mapped to a status. */
module TxnError {
  import opened Wrappers

  /** `Unset` is the zero value of the Go type, held by the unused entries of the mapping array. */
  datatype Status =
    | Unset
    | AnyStatus
    | Reorder
    | NearNonceError
    | NearNonceTooLarge
    | EthNonceError
    | EthNonceTooLow
    | Exhausted
    | UnhandledError
    | NearTimeOutError
    | AuroraContractPanicked
    | TimeOutError1
    | TimeOutError2
    | TimeOutError3

  datatype Action = Action(backoffMs: nat, retry: bool, updateEthCache: bool, updateNearCache: bool)
  {
    /** eval takes the shard lock and trips the breaker exactly for these actions. */
    predicate TakesLock() {
      updateNearCache || updateEthCache || backoffMs != 0
    }
  }

  /** A lookup in the Go map; a missing key yields the zero action. */
  function StatusAction(status: Status): Action {
    match status
    case Unset => Action(0, false, false, false)
    case AnyStatus => Action(0, false, false, false)
    case UnhandledError => Action(0, false, true, false)
    case Exhausted => Action(0, false, false, false)
    case AuroraContractPanicked => Action(0, false, true, false)
    case TimeOutError1 => Action(0, false, true, false)
    case TimeOutError2 => Action(0, false, true, false)
    case TimeOutError3 => Action(0, false, false, false)
    case EthNonceError => Action(0, true, true, false)
    case EthNonceTooLow => Action(0, true, true, false)
    case NearNonceError => Action(0, true, true, false)
    case NearNonceTooLarge => Action(0, true, true, true)
    case Reorder => Action(0, true, false, false)
    case NearTimeOutError => Action(0, true, false, false)
  }

  /** The error text of the same table entries; `None` where the table gives no error. */
  function StatusError(status: Status): Option<string> {
    match status
    case UnhandledError => Some("ERR_INVALID_TXN_RESPONSE")
    case Exhausted => Some("ERR_ENQUEUE_TXN_R")
    case TimeOutError1 => Some("ERR_TXN_TIMEOUT_1_R")
    case TimeOutError2 => Some("ERR_TXN_TIMEOUT_2_R")
    case TimeOutError3 => Some("ERR_TXN_TIMEOUT_3_R")
    case EthNonceError => Some("ERR_INCORRECT_NONCE")
    case EthNonceTooLow => Some("ERR_INCORRECT_NONCE_R")
    case NearNonceError => Some("ERR_INCORRECT_NEAR_NONCE_R")
    case NearNonceTooLarge => Some("ERR_INCORRECT_NEAR_NONCE_LARGE_R")
    case Reorder => Some("ERR_TXN_ORDER_R")
    case _ => None
  }

  /** The statuses that say a nonce was wrong. */
  predicate IsNonceStatus(status: Status) {
    status.EthNonceError? || status.EthNonceTooLow? || status.NearNonceError? || status.NearNonceTooLarge?
  }

  /** Which statuses are tried again, which look at the chain's Eth nonce, and which at its Near nonce. */
  lemma WhatStatusesAskFor(status: Status)
    ensures StatusAction(status).retry <==> IsNonceStatus(status) || status.Reorder? || status.NearTimeOutError?
    ensures StatusAction(status).updateEthCache
       <==> || IsNonceStatus(status)
            || status.UnhandledError? || status.AuroraContractPanicked?
            || status.TimeOutError1? || status.TimeOutError2?
    ensures StatusAction(status).updateNearCache <==> status.NearNonceTooLarge?
    ensures StatusAction(status).TakesLock() <==> StatusAction(status).updateEthCache
    ensures StatusAction(status).backoffMs == 0
  {
  }

  /** The error texts tell the statuses apart. */
  lemma ErrorTextsDiffer(s: Status, t: Status)
    requires StatusError(s).Some? && StatusError(s) == StatusError(t)
    ensures s == t
  {
    assert StatusError(s).value != "" && |StatusError(s).value| == |StatusError(t).value|;
  }

  /** Every status that the processor answers with itself has an error text. */
  lemma OwnStatusesHaveErrors(status: Status)
    requires || status.Reorder? || status.NearNonceError? || status.EthNonceTooLow? || status.Exhausted?
             || status.TimeOutError3?
    ensures StatusError(status).Some?
  {
  }

  datatype Mapping = Mapping(fields: seq<string>, status: Status)

  const FAILURE_PATH := ["ActionError", "kind", "FunctionCallError", "ExecutionError"]

  const NONCE_ENTRY := Mapping(FAILURE_PATH + ["ERR_INCORRECT_NONCE"], EthNonceError)

  const PANIC_ENTRY := Mapping(FAILURE_PATH + ["*"], AuroraContractPanicked)

  const EMPTY_ENTRY := Mapping([], Unset)

  /** A Go array of six entries of which the last four are zero values. */
  const STATUS_MAPPING := [NONCE_ENTRY, PANIC_ENTRY, EMPTY_ENTRY, EMPTY_ENTRY, EMPTY_ENTRY, EMPTY_ENTRY]
}
