/** TxReceiptDTO: the six-field transaction outcome record projected from a
    mined transaction receipt. */
module TxReceiptDto {
  import opened Wrappers

  /** The receipt fields the projection reads. `to` is absent for a
      contract-creating transaction; `status` is the hex quantity the node
      reports ("0x1" for success, "0x0" for a revert). */
  datatype Receipt = Receipt(
    transactionHash: string,
    status: string,
    blockNumber: nat,
    from: string,
    to: Option<string>,
    gasUsed: nat)

  /** The DTO: reference fields are nullable (None is null), success is a
      primitive boolean. */
  datatype TxReceipt = TxReceipt(
    transactionHash: Option<string>,
    success: bool,
    blockNumber: Option<nat>,
    from: Option<string>,
    to: Option<string>,
    gasUsed: Option<nat>)

  /** The no-argument constructor: every reference null, success false. */
  const Empty: TxReceipt := TxReceipt(None, false, None, None, None, None)

  const StatusOk: string := "0x1"
  const StatusFailed: string := "0x0"

  /** receipt.isStatusOK(). */
  predicate IsStatusOk(status: string) {
    status == StatusOk
  }

  /** fromReceipt: start from the empty DTO and call the six setters in turn.
      No setter reads another field, so each field ends up a copy of the
      receipt's, and every one of them is overwritten. */
  method FromReceipt(receipt: Receipt) returns (dto: TxReceipt)
    ensures dto.transactionHash == Some(receipt.transactionHash)
    ensures dto.success <==> receipt.status == StatusOk
    ensures dto.blockNumber == Some(receipt.blockNumber) && dto.gasUsed == Some(receipt.gasUsed)
    ensures dto.from == Some(receipt.from) && dto.to == receipt.to
    ensures dto.transactionHash != Empty.transactionHash && dto.blockNumber != Empty.blockNumber
    ensures dto.from != Empty.from && dto.gasUsed != Empty.gasUsed
  {
    dto := Empty;
    dto := dto.(transactionHash := Some(receipt.transactionHash));
    dto := dto.(success := IsStatusOk(receipt.status));
    dto := dto.(blockNumber := Some(receipt.blockNumber));
    dto := dto.(from := Some(receipt.from));
    dto := dto.(to := receipt.to);
    dto := dto.(gasUsed := Some(receipt.gasUsed));
  }

  /** The two statuses a node reports: "0x1" is a success, "0x0" is not. */
  lemma StatusReading()
    ensures IsStatusOk(StatusOk) && !IsStatusOk(StatusFailed)
  {
  }
}
