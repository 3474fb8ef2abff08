/** A purchase order record: its derived totals, its status helpers and its
    contact accessors. */
module PurchaseOrders {
  import opened Wrappers
  import opened LineItems

  const AUTHORISED := "AUTHORISED"
  const BILLED := "BILLED"
  const DELETED := "DELETED"

  /** The `line_amount_types` value whose line amounts already include tax. */
  const INCLUSIVE := "Inclusive"

  /** The contact attribute as the record holds it: either key may be missing. */
  datatype ContactRef = ContactRef(name: Option<string>, contactId: Option<string>)

  /** The exception `change_status!` raises, with the record and the status
      that was asked for. */
  datatype StatusError = CannotChangePurchaseOrderStatus(record: PurchaseOrder, newStatus: string)

  class PurchaseOrder {
    /** `new_record?`: built in memory and not yet persisted. */
    var isNew: bool
    /** The `line_items` association; `None` when it is nil. */
    var lineItems: Option<seq<LineItem>>
    var lineAmountTypes: string
    var status: string
    var contact: Option<ContactRef>
    /** The stored `sub_total`, `total_tax` and `total` attributes. */
    var rawSubTotal: Option<real>
    var rawTotalTax: Option<real>
    var rawTotal: Option<real>
    /** The sticky `@sub_total_is_set`, `@total_tax_is_set`, `@total_is_set` flags. */
    var subTotalIsSet: bool
    var totalTaxIsSet: bool
    var totalIsSet: bool
    /** How many times the record has been saved. */
    ghost var saveCount: nat

    /** A flag is only ever set together with the value it guards. */
    ghost predicate Valid()
      reads this
    {
      && (subTotalIsSet ==> rawSubTotal.Some?)
      && (totalTaxIsSet ==> rawTotalTax.Some?)
      && (totalIsSet ==> rawTotal.Some?)
    }

    /** A record as built or deserialized: attributes given, no flag set yet. */
    constructor (isNew: bool, lineItems: Option<seq<LineItem>>, lineAmountTypes: string,
                 status: string, contact: Option<ContactRef>,
                 rawSubTotal: Option<real>, rawTotalTax: Option<real>, rawTotal: Option<real>)
      ensures Valid()
      ensures this.isNew == isNew && this.lineItems == lineItems
      ensures this.lineAmountTypes == lineAmountTypes && this.status == status && this.contact == contact
      ensures this.rawSubTotal == rawSubTotal && this.rawTotalTax == rawTotalTax && this.rawTotal == rawTotal
      ensures !subTotalIsSet && !totalTaxIsSet && !totalIsSet
      ensures saveCount == 0
    {
      this.isNew := isNew;
      this.lineItems := lineItems;
      this.lineAmountTypes := lineAmountTypes;
      this.status := status;
      this.contact := contact;
      this.rawSubTotal := rawSubTotal;
      this.rawTotalTax := rawTotalTax;
      this.rawTotal := rawTotal;
      subTotalIsSet := false;
      totalTaxIsSet := false;
      totalIsSet := false;
      saveCount := 0;
    }

    /** `line_items || []`. */
    function Items(): (r: seq<LineItem>)
      reads this
      ensures lineItems.None? ==> r == []
      ensures lineItems.Some? ==> r == lineItems.value
    {
      lineItems.GetOr([])
    }

    /** `loaded_record?`: new, or persisted with a non-nil, non-empty
        line-item collection. */
    function Loaded(): (r: bool)
      reads this
      ensures r <==> isNew || Items() != []
    {
      isNew || (!isNew && lineItems.Some? && |lineItems.value| > 0)
    }

    /** `not_summary_or_loaded_record`: whether a getter may recompute. */
    function NotSummaryOrLoadedRecord(alwaysSummary: bool): (r: bool)
      reads this
      ensures r <==> !alwaysSummary && (isNew || Items() != [])
    {
      !alwaysSummary && Loaded()
    }

    /** `total_tax(always_summary)`: computed from the line items unless
        overridden or summary-only. */
    function TotalTax(alwaysSummary: bool): (r: Option<real>)
      requires Valid()
      reads this
      ensures !alwaysSummary && Loaded() ==> r.Some?
      ensures !totalTaxIsSet && !alwaysSummary && Loaded() ==> r == Some(Sum(Items(), TaxAmountColumn))
    {
      if !totalTaxIsSet && NotSummaryOrLoadedRecord(alwaysSummary) then
        Some(Inject(0.0, Items(), TaxAmountColumn))
      else
        rawTotalTax
    }

    /** `sub_total(always_summary)`: the line amounts, less the tax (as the
        tax getter reports it) when the amounts are tax-inclusive. */
    function SubTotal(alwaysSummary: bool): (r: Option<real>)
      requires Valid()
      reads this
      ensures !alwaysSummary && Loaded() ==> r.Some?
      ensures !subTotalIsSet && !alwaysSummary && Loaded() && lineAmountTypes != INCLUSIVE ==>
                r == Some(Sum(Items(), LineAmountColumn))
      ensures !subTotalIsSet && !alwaysSummary && Loaded() && lineAmountTypes == INCLUSIVE ==>
                r == Some(Sum(Items(), LineAmountColumn) - TotalTax(false).value)
    {
      if !subTotalIsSet && NotSummaryOrLoadedRecord(alwaysSummary) then
        var sum := Inject(0.0, Items(), LineAmountColumn);
        Some(if lineAmountTypes == INCLUSIVE then sum - TotalTax(false).value else sum)
      else
        rawSubTotal
    }

    /** `total(always_summary)`: sub-total plus tax, each through its getter. */
    function Total(alwaysSummary: bool): (r: Option<real>)
      requires Valid()
      reads this
      ensures !alwaysSummary && Loaded() ==> r.Some?
      ensures !totalIsSet && !subTotalIsSet && !totalTaxIsSet && !alwaysSummary && Loaded() ==>
                r == Some(if lineAmountTypes == INCLUSIVE
                          then Sum(Items(), LineAmountColumn)
                          else Sum(Items(), LineAmountColumn) + Sum(Items(), TaxAmountColumn))
    {
      if !totalIsSet && NotSummaryOrLoadedRecord(alwaysSummary) then
        Some(SubTotal(false).value + TotalTax(false).value)
      else
        rawTotal
    }

    /** `sub_total=`: store the value and make it stick. */
    method SetSubTotal(v: real)
      requires Valid()
      modifies this`subTotalIsSet, this`rawSubTotal
      ensures Valid()
      ensures subTotalIsSet && rawSubTotal == Some(v)
      ensures forall s: bool :: SubTotal(s) == Some(v)
      ensures forall s: bool :: TotalTax(s) == old(TotalTax(s))
      ensures !totalIsSet && Loaded() ==> Total(false) == Some(v + TotalTax(false).value)
    {
      subTotalIsSet := true;
      rawSubTotal := Some(v);
    }

    /** `total_tax=`: store the value and make it stick; an inclusive
        sub-total that is still computed now subtracts this value. */
    method SetTotalTax(v: real)
      requires Valid()
      modifies this`totalTaxIsSet, this`rawTotalTax
      ensures Valid()
      ensures totalTaxIsSet && rawTotalTax == Some(v)
      ensures forall s: bool :: TotalTax(s) == Some(v)
      ensures !subTotalIsSet && Loaded() ==>
                SubTotal(false) == Some(if lineAmountTypes == INCLUSIVE
                                        then Sum(Items(), LineAmountColumn) - v
                                        else Sum(Items(), LineAmountColumn))
    {
      totalTaxIsSet := true;
      rawTotalTax := Some(v);
    }

    /** `total=`: store the value and make it stick; the other two getters
        are unaffected. */
    method SetTotal(v: real)
      requires Valid()
      modifies this`totalIsSet, this`rawTotal
      ensures Valid()
      ensures totalIsSet && rawTotal == Some(v)
      ensures forall s: bool :: Total(s) == Some(v)
      ensures forall s: bool :: SubTotal(s) == old(SubTotal(s)) && TotalTax(s) == old(TotalTax(s))
    {
      totalIsSet := true;
      rawTotal := Some(v);
    }

    /** `approved?`. */
    function Approved(): (r: bool)
      reads this
      ensures r <==> status == AUTHORISED || status == BILLED
    {
      status in [AUTHORISED, BILLED]
    }

    /** `contact_name`: nil-safe lookup of the contact's name. */
    function ContactName(): (r: Option<string>)
      reads this
      ensures contact.None? ==> r.None?
      ensures contact.Some? ==> r == contact.value.name
    {
      match contact
      case None => None
      case Some(c) => c.name
    }

    /** `contact_id`: nil-safe lookup of the contact's identifier. */
    function ContactId(): (r: Option<string>)
      reads this
      ensures contact.None? ==> r.None?
      ensures contact.Some? ==> r == contact.value.contactId
    {
      match contact
      case None => None
      case Some(c) => c.contactId
    }

    /** `change_status!`: raises before it assigns the status or saves, so
        the statements after the raise never run. With no modifies clause
        the record, its status and its save count are left as they were. */
    method ChangeStatus(newStatus: string) returns (raised: StatusError)
      ensures raised == CannotChangePurchaseOrderStatus(this, newStatus)
    {
      raised := CannotChangePurchaseOrderStatus(this, newStatus);
    }

    /** `approve!`: always raises, naming AUTHORISED; nothing changes. */
    method Approve() returns (raised: StatusError)
      ensures raised == CannotChangePurchaseOrderStatus(this, AUTHORISED)
    {
      raised := ChangeStatus(AUTHORISED);
    }

    /** `delete!`: always raises, naming DELETED; nothing changes. */
    method Delete() returns (raised: StatusError)
      ensures raised == CannotChangePurchaseOrderStatus(this, DELETED)
    {
      raised := ChangeStatus(DELETED);
    }
  }

  /** An override wins over everything: loaded or summary, forced or not. */
  lemma OverridesWin(po: PurchaseOrder, alwaysSummary: bool)
    requires po.Valid()
    ensures po.subTotalIsSet ==> po.SubTotal(alwaysSummary) == Some(po.rawSubTotal.value)
    ensures po.totalTaxIsSet ==> po.TotalTax(alwaysSummary) == Some(po.rawTotalTax.value)
    ensures po.totalIsSet ==> po.Total(alwaysSummary) == Some(po.rawTotal.value)
  {
  }

  /** Forced to summary, or a persisted record without line items: every
      getter hands back the stored attribute, absent or not, never a computed 0. */
  lemma SummaryReturnsRaw(po: PurchaseOrder, alwaysSummary: bool)
    requires po.Valid()
    requires alwaysSummary || (!po.isNew && po.Items() == [])
    ensures po.SubTotal(alwaysSummary) == po.rawSubTotal
    ensures po.TotalTax(alwaysSummary) == po.rawTotalTax
    ensures po.Total(alwaysSummary) == po.rawTotal
  {
  }

  /** On a loaded record the total is the sum of the other two getters, so
      their overrides are honoured. */
  lemma TotalComposes(po: PurchaseOrder)
    requires po.Valid() && po.Loaded() && !po.totalIsSet
    ensures po.Total(false) == Some(po.SubTotal(false).value + po.TotalTax(false).value)
  {
  }

  /** An inclusive sub-total subtracts an overridden tax, not the line taxes. */
  lemma InclusiveSubTotalHonoursTaxOverride(po: PurchaseOrder)
    requires po.Valid() && po.Loaded() && !po.subTotalIsSet && po.totalTaxIsSet
    requires po.lineAmountTypes == INCLUSIVE
    ensures po.SubTotal(false) == Some(Sum(po.Items(), LineAmountColumn) - po.rawTotalTax.value)
  {
  }

  /** A record that differs only by one more line item (and so is loaded)
      reports that item's tax on top, and its line amount on top of an
      exclusive sub-total, when neither total is overridden. */
  lemma {:induction false} AddingLineItemAddsItsAmounts(po: PurchaseOrder, more: PurchaseOrder, item: LineItem)
    requires po.Valid() && more.Valid() && po.Loaded()
    requires more.isNew == po.isNew && more.lineAmountTypes == po.lineAmountTypes
    requires more.Items() == po.Items() + [item]
    requires !po.totalTaxIsSet && !more.totalTaxIsSet
    ensures more.TotalTax(false) == Some(po.TotalTax(false).value + item.taxAmount)
    ensures !po.subTotalIsSet && !more.subTotalIsSet && po.lineAmountTypes != INCLUSIVE ==>
              more.SubTotal(false) == Some(po.SubTotal(false).value + item.lineAmount)
  {
    SumAppend(po.Items(), [item], TaxAmountColumn);
    SumAppend(po.Items(), [item], LineAmountColumn);
    assert [item][1..] == [];
  }

  /** A new record always computes, and with no line items every total is 0. */
  lemma NewRecordWithoutItemsIsZero(po: PurchaseOrder)
    requires po.Valid() && po.isNew && po.Items() == []
    requires !po.subTotalIsSet && !po.totalTaxIsSet && !po.totalIsSet
    ensures po.SubTotal(false) == Some(0.0)
    ensures po.TotalTax(false) == Some(0.0)
    ensures po.Total(false) == Some(0.0)
  {
  }

  /** Tax-exclusive amounts 10 + 20 with tax 1 + 2: 30, 3 and 33. */
  lemma ExclusiveExample(po: PurchaseOrder)
    requires po.Valid() && po.isNew
    requires po.lineItems == Some([LineItem(10.0, 1.0), LineItem(20.0, 2.0)])
    requires po.lineAmountTypes == "Exclusive"
    requires !po.subTotalIsSet && !po.totalTaxIsSet && !po.totalIsSet
    ensures po.SubTotal(false) == Some(30.0)
    ensures po.TotalTax(false) == Some(3.0)
    ensures po.Total(false) == Some(33.0)
  {
  }

  /** The same items tax-inclusive: sub-total 27, tax 3, total 30. */
  lemma InclusiveExample(po: PurchaseOrder)
    requires po.Valid() && po.isNew
    requires po.lineItems == Some([LineItem(10.0, 1.0), LineItem(20.0, 2.0)])
    requires po.lineAmountTypes == INCLUSIVE
    requires !po.subTotalIsSet && !po.totalTaxIsSet && !po.totalIsSet
    ensures po.SubTotal(false) == Some(27.0)
    ensures po.TotalTax(false) == Some(3.0)
    ensures po.Total(false) == Some(30.0)
  {
  }
}
