/**
 * Rows of the received-orders table: the row the projection writes for a
 * synthetic purchase order, and the normaliser through which every order is
 * read back.  An absent string field and an empty one are both "".
 */
module OrderRows {
  import opened Basics

  datatype Award = Award(awardId: Id, supplierId: Id, supplierName: string,
                         totalAmount: real, savingsAmount: real)

  datatype SupplierPart = SupplierPart(supplierId: Id, name: string, supplierName: string)

  datatype AwardPart = AwardPart(awardId: Id, savingsAmount: Option<real>,
                                 savingsVsBudget: Option<real>, savingsPct: Option<real>)

  /** The JSON document stored in the `purchase_order` column. */
  datatype Payload = Payload(orderId: Id, requisitionId: Id, tenantId: Id,
                             supplier: SupplierPart, award: AwardPart, totalPrice: Option<real>)

  datatype OrderRow = OrderRow(orderId: Id, requisitionId: Id, tenantId: Id,
                               purchaseOrder: Option<Payload>, receptionStatus: Option<string>)

  /** An order in the shape the application works with. */
  datatype Order = Order(orderId: Id, requisitionId: Id, tenantId: Id, supplierId: Id,
                         supplierName: string, status: string, totalValue: real,
                         savingsAmount: real, savingsPct: real, awardId: Id)

  const NO_PAYLOAD := Payload("", "", "", SupplierPart("", "", ""), AwardPart("", None, None, None), None)

  function OrZero(r: Option<real>): real {
    if r.Some? then r.value else 0.0
  }

  function NormalizeReceivedOrder(row: OrderRow): Order {
    var po := if row.purchaseOrder.Some? then row.purchaseOrder.value else NO_PAYLOAD;
    Order(Or(row.orderId, po.orderId),
          Or(row.requisitionId, po.requisitionId),
          Or(row.tenantId, po.tenantId),
          po.supplier.supplierId,
          Or(po.supplier.name, po.supplier.supplierName),
          if row.receptionStatus.Some? then row.receptionStatus.value else "RECEIVED",
          OrZero(po.totalPrice),
          OrZero(if po.award.savingsAmount.Some? then po.award.savingsAmount else po.award.savingsVsBudget),
          OrZero(po.award.savingsPct),
          po.award.awardId)
  }

  /** The winning supplier's display name: the award's own, else the roster's, else the id. */
  function WinnerName(award: Award, names: map<Id, string>): string {
    Or(award.supplierName, Or(Lookup(names, award.supplierId, ""), award.supplierId))
  }

  /** The row put for a synthetic order. */
  function SyntheticRow(orderId: Id, requisitionId: Id, tenantId: Id, award: Award, name: string): OrderRow {
    var payload := Payload(orderId, requisitionId, tenantId,
                           SupplierPart(award.supplierId, name, name),
                           AwardPart(award.awardId, Some(award.savingsAmount), None, None),
                           Some(award.totalAmount));
    OrderRow(orderId, requisitionId, tenantId, Some(payload), Some("PENDING"))
  }

  /** What is read back is what was put. */
  lemma SyntheticRowRoundTrip(orderId: Id, requisitionId: Id, tenantId: Id, award: Award, name: string)
    ensures NormalizeReceivedOrder(SyntheticRow(orderId, requisitionId, tenantId, award, name))
         == Order(orderId, requisitionId, tenantId, award.supplierId, name, "PENDING",
                  award.totalAmount, award.savingsAmount, 0.0, award.awardId)
  {
  }

  /**
   * A received row's own ids win over its payload's; the payload gives the
   * supplier, the award and the sums; what neither gives is empty or zero; the
   * status is "RECEIVED" until a reception status is set; and savings against
   * the budget count only when no savings amount is given.
   */
  lemma ReceivedRowFields(row: OrderRow)
    ensures var o := NormalizeReceivedOrder(row);
      && (row.orderId != "" ==> o.orderId == row.orderId) && (row.requisitionId != "" ==> o.requisitionId == row.requisitionId)
      && (row.tenantId != "" ==> o.tenantId == row.tenantId)
      && o.status == (if row.receptionStatus.Some? then row.receptionStatus.value else "RECEIVED")
      && match row.purchaseOrder
         case Some(po) =>
           && (row.orderId == "" ==> o.orderId == po.orderId) && (row.requisitionId == "" ==> o.requisitionId == po.requisitionId)
           && (row.tenantId == "" ==> o.tenantId == po.tenantId)
           && o.supplierId == po.supplier.supplierId
           && o.supplierName == (if po.supplier.name != "" then po.supplier.name else po.supplier.supplierName)
           && o.totalValue == (if po.totalPrice.Some? then po.totalPrice.value else 0.0)
           && (po.award.savingsAmount.Some? ==> o.savingsAmount == po.award.savingsAmount.value)
           && (po.award.savingsAmount.None? ==>
                 o.savingsAmount == if po.award.savingsVsBudget.Some? then po.award.savingsVsBudget.value else 0.0)
           && o.savingsPct == (if po.award.savingsPct.Some? then po.award.savingsPct.value else 0.0)
           && o.awardId == po.award.awardId
         case None =>
           && (row.orderId == "" ==> o.orderId == "") && o.supplierId == "" && o.supplierName == "" && o.awardId == ""
           && o.totalValue == 0.0 && o.savingsAmount == 0.0 && o.savingsPct == 0.0
  {
  }
}
