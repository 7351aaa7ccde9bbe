/**
 * The new-requisition form: the client-side item and requisition
 * validation, the total-cost reduction, the payload sent to the add
 * route, and the item field array that starts with one blank row and
 * grows and shrinks in place.
 */
module RequisitionForm {
  import opened Types
  import opened Seqs
  import opened RequisitionSchema
  import opened RequisitionRoutes

  /** The item rule: three non-empty strings, a quantity of at least 1 and a non-negative cost. */
  predicate ValidFormItem(item: FormItem)
  {
    && |item.name| >= 1
    && |item.description| >= 1
    && item.quantity >= 1
    && item.estimatedCost >= 0
    && |item.justification| >= 1
  }

  /** The form rule: a title of at least 3 characters, a description of at least 10, and at least one valid item. */
  predicate ValidForm(data: FormData)
  {
    && |data.title| >= 3
    && |data.description| >= 10
    && |data.items| >= 1
    && forall i :: 0 <= i < |data.items| ==> ValidFormItem(data.items[i])
  }

  /** One row's contribution to the total. */
  function ItemTotal(item: FormItem): int
  {
    LineTotal(item.quantity, item.estimatedCost)
  }

  /** The `reduce`: quantity times cost, added up over the items in order, starting from 0. */
  function TotalCost(items: seq<FormItem>): int
  {
    SumOf(items, ItemTotal)
  }

  /** The row every new item starts as. */
  const BlankItem: FormItem := FormItem("", "", 1, 0, "")

  /** An item as the server schema receives it: every path present. */
  function ToItemDoc(item: FormItem): (d: ItemDoc)
    ensures ValidItem(d) <==> item.name != "" && item.description != "" && item.justification != ""
    ensures d.name == Some(item.name) && d.description == Some(item.description)
    ensures d.justification == Some(item.justification)
    ensures d.quantity == Some(item.quantity) && d.estimatedCost == Some(item.estimatedCost)
  {
    ItemDoc(Some(item.name), Some(item.description), Some(item.quantity),
            Some(item.estimatedCost), Some(item.justification))
  }

  /**
   * The request body: the form data, the computed `totalCost`, and
   * `createdBy` from the signed-in user (absent when nobody is signed in).
   */
  function Payload(data: FormData, user: Option<User>): (b: Body)
    ensures b.title == Some(data.title) && b.description == Some(data.description)
    ensures b.items.Some? && |b.items.value| == |data.items|
    ensures forall i :: 0 <= i < |data.items| ==> b.items.value[i] == ToItemDoc(data.items[i])
    ensures b.totalCost == Some(TotalCost(data.items))
    ensures b.createdBy == if user.Some? then Some(user.value.id) else None
    ensures b.status.None? && b.approvedBy.None? && b.rejectedBy.None?
  {
    Body(Some(data.title), Some(data.description),
         Some(seq(|data.items|, i requires 0 <= i < |data.items| => ToItemDoc(data.items[i]))),
         Some(TotalCost(data.items)), None,
         if user.Some? then Some(user.value.id) else None,
         None, None, None, None)
  }

  /** Valid items make a non-negative total. */
  lemma {:induction false} TotalCostNonNegative(items: seq<FormItem>)
    requires forall i :: 0 <= i < |items| ==> ValidFormItem(items[i])
    ensures TotalCost(items) >= 0
  {
    if items != [] {
      TotalCostNonNegative(items[..|items| - 1]);
      assert ValidFormItem(items[|items| - 1]);
    }
  }

  /** Appending a blank row leaves the total as it was. */
  lemma AddBlankKeepsTotal(items: seq<FormItem>)
    ensures TotalCost(items + [BlankItem]) == TotalCost(items)
  {
    assert (items + [BlankItem])[..|items|] == items;
  }

  /** Removing a row takes exactly its line total off the total. */
  lemma {:induction false} RemoveSubtractsLine(items: seq<FormItem>, index: nat)
    requires index < |items|
    ensures TotalCost(items[..index] + items[index + 1..]) == TotalCost(items) - ItemTotal(items[index])
  {
    SumOfAppend(items[..index], items[index + 1..], ItemTotal);
    SumOfAppend(items[..index], [items[index]] + items[index + 1..], ItemTotal);
    SumOfAppend([items[index]], items[index + 1..], ItemTotal);
    assert items == items[..index] + ([items[index]] + items[index + 1..]);
    assert SumOf([items[index]], ItemTotal) == ItemTotal(items[index]) by {
      assert [items[index]][..0] == [];
    }
  }

  /** A fresh blank row never passes the item rule, so a form still holding one cannot be submitted. */
  lemma BlankItemInvalid(data: FormData)
    requires exists i :: 0 <= i < |data.items| && data.items[i] == BlankItem
    ensures !ValidForm(data)
  {
  }

  /**
   * A form that passes the client rules, sent by a signed-in user, is
   * accepted by the add route and stored as a draft owned by that user
   * whose total is the item sum.
   */
  lemma {:induction false} SubmittedFormStored(data: FormData, user: User, now: Time)
    requires ValidForm(data)
    ensures ValidRequisition(NewRecord(Payload(data, Some(user)), now))
    ensures NewRecord(Payload(data, Some(user)), now).createdBy == Some(user.id)
    ensures NewRecord(Payload(data, Some(user)), now).totalCost == Some(TotalCost(data.items))
    ensures NewRecord(Payload(data, Some(user)), now).status == Some("draft")
  {
    var b := Payload(data, Some(user));
    forall i | 0 <= i < |b.items.value|
      ensures ValidItem(b.items.value[i])
    {
      assert ValidFormItem(data.items[i]);
    }
    assert |data.title| >= 3 && |data.description| >= 10;
  }

  /** Without a signed-in user the payload has no owner and the add route refuses it. */
  lemma AnonymousSubmissionRefused(data: FormData, now: Time)
    ensures !ValidRequisition(NewRecord(Payload(data, None), now))
  {
  }

  /**
   * `onSubmit` behind the form resolver: a form that fails the client
   * rules is never sent; a valid one is posted to the add route.
   */
  method Submit(data: FormData, user: Option<User>, store: RequisitionStore, now: Time) returns (ok: bool, id: Id)
    requires store.Valid()
    modifies store
    ensures store.Valid()
    ensures ok <==> ValidForm(data) && user.Some?
    ensures !ok ==> store.records == old(store.records)
    ensures ok ==> id !in old(store.records)
    ensures ok ==> store.records == old(store.records)[id := NewRecord(Payload(data, user), now)]
  {
    ok, id := false, 0;
    if ValidForm(data) {
      ok, id := store.Add(Payload(data, user), now);
      if user.Some? {
        SubmittedFormStored(data, user.value, now);
      } else {
        AnonymousSubmissionRefused(data, now);
      }
    }
  }

  /** The item field array. Its remove control is rendered only while there is more than one row. */
  class ItemFields {
    var fields: seq<FormItem>

    /** The UI never leaves the form without a row. */
    ghost predicate Valid()
      reads this
    {
      |fields| >= 1
    }

    /** The default values: exactly one blank row. */
    constructor ()
      ensures Valid() && fields == [BlankItem]
    {
      fields := [BlankItem];
    }

    /** `addItem`: appends one blank row. */
    method AddItem()
      requires Valid()
      modifies this
      ensures Valid() && fields == old(fields) + [BlankItem]
      ensures TotalCost(fields) == TotalCost(old(fields))
    {
      fields := fields + [BlankItem];
      AddBlankKeepsTotal(old(fields));
    }

    /**
     * A click on row `index`'s remove control: the control exists only
     * when there are at least two rows, so otherwise nothing happens.
     */
    method ClickRemove(index: nat)
      requires Valid()
      modifies this
      ensures Valid()
      ensures |old(fields)| > 1 && index < |old(fields)| ==>
        fields == old(fields)[..index] + old(fields)[index + 1..]
      ensures |old(fields)| > 1 && index < |old(fields)| ==>
        TotalCost(fields) == TotalCost(old(fields)) - ItemTotal(old(fields)[index])
      ensures !(|old(fields)| > 1 && index < |old(fields)|) ==> fields == old(fields)
    {
      if |fields| > 1 && index < |fields| {
        RemoveSubtractsLine(fields, index);
        fields := fields[..index] + fields[index + 1..];
      }
    }
  }
}
