/** The cart pricing engine (App.tsx, calculateCartTotals): the amount due
    for a cart and the savings message shown beside it. Notes are priced by
    tier on their summed quantity, or at the full-access price per bundle
    ("DaBao") unit when the bundle is in the cart; every item outside the
    'Note' category is charged price times quantity. */
module Pricing {
  import opened Types
  import opened Text
  import opened Sequences
  import opened Cart

  const NoteCategory := "Note"

  // Pricing constants, in cents.
  const PriceNoteBase: Cents := 1000
  const PriceNoteTier1: Cents := 800   // 3+ notes
  const PriceNoteTier2: Cents := 700   // 5+ notes
  const PriceFullAccess: Cents := 8900 // 21+ notes, or per bundle

  // Messages. The source splices the tier constants into template literals,
  // where the dollar amounts 8 and 7 render without decimals.
  const DaBaoMessage := "DaBao Active: All Notes Included!"
  const FullAccessMessage := "Full Access Price Cap Applied ($89)"
  const Tier2Message := "5-Pack Discount Applied ($7/note)"
  const Tier1Message := "3-Pack Discount Applied ($8/note)"

  const AddMoreTail := " more notes to save ($8/each)!"
  const SuperSaverTail := " more notes for super saver ($7/each)!"

  function AddMoreMessage(missing: int): string
  {
    "Add " + DecimalString(missing) + AddMoreTail
  }

  function SuperSaverMessage(missing: int): string
  {
    "Add " + DecimalString(missing) + SuperSaverTail
  }

  /** `{ total, message }`: the amount due and the advisory message ("" for
      none). */
  datatype CartTotals = CartTotals(total: Cents, message: string)

  /** The line is the bundle product's. */
  predicate IsBundle(item: CartItem, bundleId: Option<string>)
  {
    bundleId.Some? && item.Id() == bundleId.value
  }

  /** The `regularNoteItems` filter: notes other than the bundle. */
  function IsRegularNote(bundleId: Option<string>): CartItem -> bool
  {
    (item: CartItem) => item.product.category == NoteCategory && !IsBundle(item, bundleId)
  }

  /** The `otherItems` filter: everything outside the 'Note' category. The
      bundle id is not excluded here. */
  function IsOther(item: CartItem): bool
  {
    item.product.category != NoteCategory
  }

  function LineTotal(item: CartItem): Cents
  {
    item.product.price * item.quantity
  }

  /** `daBaoCount`: the quantity of the first line with the bundle's id, or 0
      when there is no bundle or no such line. */
  function BundleCount(items: seq<CartItem>, bundleId: Option<string>): (r: int)
    ensures bundleId.None? || !HasId(items, bundleId.value) ==> r == 0
    ensures bundleId.Some? && HasId(items, bundleId.value) ==>
      exists i :: 0 <= i < |items| && items[i].Id() == bundleId.value && items[i].quantity == r
  {
    match bundleId
    case None => 0
    case Some(id) =>
      match Find(items, id)
      case None => 0
      case Some(item) => item.quantity
  }

  /** `notesCount`: summed quantity of the regular note lines. */
  function NotesCount(items: seq<CartItem>, bundleId: Option<string>): (r: int)
    ensures r == RegularNoteQuantity(items, bundleId)
  {
    FilterSum(items, IsRegularNote(bundleId), Quantity);
    QuantitySum(Filter(items, IsRegularNote(bundleId)))
  }

  /** `othersTotalCost`: price times quantity summed over the other lines. */
  function OthersTotal(items: seq<CartItem>): (r: Cents)
    ensures r == NonNoteCost(items)
  {
    FilterSum(items, IsOther, LineTotal);
    SumOf(Filter(items, IsOther), LineTotal)
  }

  /** `notesTotalCost` and `message` as the branches of calculateCartTotals
      set them, including the inner `notesCount < 5` test of the last branch.
      A message is shown exactly when there is a bundle unit or a note, and
      without a bundle no tier charges more than the base price per note. */
  function NotesPricing(daBaoCount: int, notesCount: int): (r: CartTotals)
    ensures r.message == "" <==> daBaoCount <= 0 && notesCount <= 0
    ensures daBaoCount <= 0 && notesCount >= 0 ==> 0 <= r.total <= notesCount * PriceNoteBase
  {
    if daBaoCount > 0 then CartTotals(daBaoCount * PriceFullAccess, DaBaoMessage)
    else if notesCount >= 21 then CartTotals(PriceFullAccess, FullAccessMessage)
    else if notesCount >= 5 then CartTotals(notesCount * PriceNoteTier2, Tier2Message)
    else if notesCount >= 3 then CartTotals(notesCount * PriceNoteTier1, Tier1Message)
    else
      CartTotals(notesCount * PriceNoteBase,
        if notesCount > 0 then
          if notesCount < 3 then AddMoreMessage(3 - notesCount)
          else if notesCount < 5 then SuperSaverMessage(5 - notesCount)
          else ""
        else "")
  }

  /** calculateCartTotals(items), with the loaded bundle product's id. The
      message is empty exactly when there is neither a bundle unit nor a
      regular note; without a bundle the total lies between the non-note
      cost and that cost plus the base price of every note. */
  function CalculateCartTotals(items: seq<CartItem>, bundleId: Option<string>): (r: CartTotals)
    ensures r.message == "" <==>
      BundleCount(items, bundleId) <= 0 && RegularNoteQuantity(items, bundleId) <= 0
    ensures BundleCount(items, bundleId) <= 0 && RegularNoteQuantity(items, bundleId) >= 0 ==>
      NonNoteCost(items) <= r.total <=
        RegularNoteQuantity(items, bundleId) * PriceNoteBase + NonNoteCost(items)
  {
    var notes := NotesPricing(BundleCount(items, bundleId), NotesCount(items, bundleId));
    CartTotals(notes.total + OthersTotal(items), notes.message)
  }

  // ---------------------------------------------------------------------
  // Reference definitions, stated line by line over the whole cart

  /** Summed quantity of the 'Note' lines whose id is not the bundle id. */
  function RegularNoteQuantity(items: seq<CartItem>, bundleId: Option<string>): int
  {
    SumOf(items, Masked(IsRegularNote(bundleId), Quantity))
  }

  /** Price times quantity summed over every line outside the 'Note'
      category; 'Note' lines add nothing whatever their price. */
  function NonNoteCost(items: seq<CartItem>): Cents
  {
    SumOf(items, Masked(IsOther, LineTotal))
  }

  /** No line for the bundle product has a positive quantity. */
  predicate NoActiveBundle(items: seq<CartItem>, bundleId: Option<string>)
  {
    forall i :: 0 <= i < |items| && IsBundle(items[i], bundleId) ==> items[i].quantity <= 0
  }

  // ---------------------------------------------------------------------
  // Properties

  /** A bundle line with positive quantity q prices the notes at q times the
      full-access price and shows the bundle message, whatever the regular
      notes in the cart; the other lines are still charged in full. */
  lemma {:induction false} BundleOverridesTiers(items: seq<CartItem>, bundleId: Option<string>, k: int)
    requires 0 <= k < |items| && bundleId == Some(items[k].Id()) && items[k].quantity > 0
    requires forall j :: 0 <= j < k ==> items[j].Id() != items[k].Id()
    ensures CalculateCartTotals(items, bundleId).total ==
            items[k].quantity * PriceFullAccess + NonNoteCost(items)
    ensures CalculateCartTotals(items, bundleId).message == "DaBao Active: All Notes Included!"
  {
    FindFirst(items, k);
  }

  lemma {:induction false} NoActiveBundleCount(items: seq<CartItem>, bundleId: Option<string>)
    requires NoActiveBundle(items, bundleId)
    ensures BundleCount(items, bundleId) <= 0
  {
    if bundleId.Some? {
      var found := Find(items, bundleId.value);
      if found.Some? {
        var i :| 0 <= i < |items| && items[i] == found.value;
        assert IsBundle(items[i], bundleId);
      }
    }
  }

  /** The rendered "add more" message for two notes ... */
  lemma {:induction false} AddOneMoreMessage()
    ensures AddMoreMessage(1) == "Add 1" + AddMoreTail
  {
    assert DecimalString(1) == "1";
    assert "Add " + "1" == "Add 1";
  }

  /** ... and for one note. */
  lemma {:induction false} AddTwoMoreMessage()
    ensures AddMoreMessage(2) == "Add 2" + AddMoreTail
  {
    assert DecimalString(2) == "2";
    assert "Add " + "2" == "Add 2";
  }

  /** Without an active bundle the notes are priced by the tier of their
      summed quantity n: a flat cap from 21, 7 each from 5 to 20, 8 each for
      3 and 4, 10 each below; the other lines are added at full price. */
  lemma {:induction false} NoteTiers(items: seq<CartItem>, bundleId: Option<string>)
    requires NoActiveBundle(items, bundleId)
    ensures var n, others, r :=
      RegularNoteQuantity(items, bundleId), NonNoteCost(items), CalculateCartTotals(items, bundleId);
      && (n >= 21 ==>
            r.total == PriceFullAccess + others && r.message == "Full Access Price Cap Applied ($89)")
      && (5 <= n <= 20 ==>
            r.total == n * PriceNoteTier2 + others && r.message == "5-Pack Discount Applied ($7/note)")
      && (3 <= n <= 4 ==>
            r.total == n * PriceNoteTier1 + others && r.message == "3-Pack Discount Applied ($8/note)")
      && (n == 2 ==>
            r.total == 2 * PriceNoteBase + others && r.message == "Add 1" + AddMoreTail)
      && (n == 1 ==>
            r.total == PriceNoteBase + others && r.message == "Add 2" + AddMoreTail)
      && (n <= 0 ==> r.total == n * PriceNoteBase + others && r.message == "")
  {
    NoActiveBundleCount(items, bundleId);
    AddOneMoreMessage();
    AddTwoMoreMessage();
    var n := NotesCount(items, bundleId);
    var notes := NotesPricing(BundleCount(items, bundleId), n);
    assert CalculateCartTotals(items, bundleId) == CartTotals(notes.total + OthersTotal(items), notes.message);
  }

  /** With no bundle and no regular notes the notes cost nothing and no
      message is shown. */
  lemma {:induction false} EmptyNotesNoMessage(items: seq<CartItem>, bundleId: Option<string>)
    requires NoActiveBundle(items, bundleId) && RegularNoteQuantity(items, bundleId) == 0
    ensures CalculateCartTotals(items, bundleId) == CartTotals(NonNoteCost(items), "")
  {
    NoteTiers(items, bundleId);
  }

  /** The "super saver" message is never shown: its branch lies inside the
      branch taken only for fewer than 3 notes. */
  lemma {:induction false} SuperSaverNeverShown(items: seq<CartItem>, bundleId: Option<string>, missing: int)
    ensures CalculateCartTotals(items, bundleId).message != SuperSaverMessage(missing)
  {
    var m := CalculateCartTotals(items, bundleId).message;
    var n := NotesCount(items, bundleId);
    var s := SuperSaverMessage(missing);
    var saver := " more notes for super saver ($7/each)!";
    var save := " more notes to save ($8/each)!";
    assert s == ("Add " + DecimalString(missing)) + saver;
    assert s[|s| - 10..] == saver[|saver| - 10..];
    if BundleCount(items, bundleId) <= 0 && 0 < n < 3 {
      assert m == ("Add " + DecimalString(3 - n)) + save;
      assert m[|m| - 10..] == save[|save| - 10..];
    }
    assert |m| < 10 || m[|m| - 10..] != "($7/each)!";
  }

  /** The prices of 'Note' lines never enter the total: two carts that differ
      only in those prices are priced alike. */
  lemma {:induction false} NotePricesIgnored(items: seq<CartItem>, items': seq<CartItem>, bundleId: Option<string>)
    requires |items| == |items'|
    requires forall i :: 0 <= i < |items| ==> SameButNotePrice(items[i], items'[i])
    ensures CalculateCartTotals(items, bundleId) == CalculateCartTotals(items', bundleId)
  {
    PricingInputsAgree(items, items', bundleId);
  }

  /** The lines agree in everything the pricing reads except, for a 'Note'
      line, its price. */
  predicate SameButNotePrice(a: CartItem, b: CartItem)
  {
    && a.Id() == b.Id()
    && a.quantity == b.quantity
    && a.product.category == b.product.category
    && (a.product.category != NoteCategory ==> a.product.price == b.product.price)
  }

  lemma {:induction false} PricingInputsAgree(items: seq<CartItem>, items': seq<CartItem>, bundleId: Option<string>)
    requires |items| == |items'|
    requires forall i :: 0 <= i < |items| ==> SameButNotePrice(items[i], items'[i])
    ensures BundleCount(items, bundleId) == BundleCount(items', bundleId)
    ensures RegularNoteQuantity(items, bundleId) == RegularNoteQuantity(items', bundleId)
    ensures NonNoteCost(items) == NonNoteCost(items')
  {
    if bundleId.Some? {
      FindAgrees(items, items', bundleId.value);
    }
    var notes, others := Masked(IsRegularNote(bundleId), Quantity), Masked(IsOther, LineTotal);
    forall a, a' | SameButNotePrice(a, a') ensures notes(a) == notes(a') && others(a) == others(a') {
      assert LineTotal(a) == LineTotal(a') || !IsOther(a);
      assert others(a) == if IsOther(a) then LineTotal(a) else 0;
      assert others(a') == if IsOther(a') then LineTotal(a') else 0;
      assert IsRegularNote(bundleId)(a) == IsRegularNote(bundleId)(a');
    }
    SumAgrees(items, items', notes);
    SumAgrees(items, items', others);
  }

  lemma {:induction false} FindAgrees(items: seq<CartItem>, items': seq<CartItem>, id: string)
    requires |items| == |items'|
    requires forall i :: 0 <= i < |items| ==> SameButNotePrice(items[i], items'[i])
    ensures Find(items, id).Some? == Find(items', id).Some?
    ensures Find(items, id).Some? ==> Find(items, id).value.quantity == Find(items', id).value.quantity
  {
    if items != [] {
      assert SameButNotePrice(items[0], items'[0]);
      FindAgrees(items[1..], items'[1..], id);
    }
  }

  /** A per-line amount blind to note prices sums alike over the two carts. */
  lemma {:induction false} SumAgrees(items: seq<CartItem>, items': seq<CartItem>, f: CartItem -> int)
    requires |items| == |items'|
    requires forall i :: 0 <= i < |items| ==> SameButNotePrice(items[i], items'[i])
    requires forall a, a' :: SameButNotePrice(a, a') ==> f(a) == f(a')
    ensures SumOf(items, f) == SumOf(items', f)
  {
    if items != [] {
      assert SameButNotePrice(items[0], items'[0]);
      SumAgrees(items[1..], items'[1..], f);
    }
  }

  /** The order of the lines does not matter: a cart with one line per
      product and any reordering of it are priced alike. */
  lemma {:induction false} OrderIrrelevant(items: seq<CartItem>, items': seq<CartItem>, bundleId: Option<string>)
    requires multiset(items) == multiset(items')
    requires DistinctIds(items) && DistinctIds(items')
    ensures CalculateCartTotals(items, bundleId) == CalculateCartTotals(items', bundleId)
  {
    NotesCountPermutation(items, items', bundleId);
    OthersTotalPermutation(items, items');
    BundleCountPermutation(items, items', bundleId);
  }

  lemma {:induction false} NotesCountPermutation(items: seq<CartItem>, items': seq<CartItem>, bundleId: Option<string>)
    requires multiset(items) == multiset(items')
    ensures NotesCount(items, bundleId) == NotesCount(items', bundleId)
  {
    var p := IsRegularNote(bundleId);
    FilterPermutation(items, items', p);
    SumOfPermutation(Filter(items, p), Filter(items', p), Quantity);
  }

  lemma {:induction false} OthersTotalPermutation(items: seq<CartItem>, items': seq<CartItem>)
    requires multiset(items) == multiset(items')
    ensures OthersTotal(items) == OthersTotal(items')
  {
    FilterPermutation(items, items', IsOther);
    SumOfPermutation(Filter(items, IsOther), Filter(items', IsOther), LineTotal);
  }

  lemma {:induction false} BundleCountPermutation(items: seq<CartItem>, items': seq<CartItem>, bundleId: Option<string>)
    requires multiset(items) == multiset(items')
    requires DistinctIds(items) && DistinctIds(items')
    ensures BundleCount(items, bundleId) == BundleCount(items', bundleId)
  {
    if bundleId.Some? {
      var id := bundleId.value;
      HasIdPermutation(items, items', id);
      if HasId(items, id) {
        var k :| 0 <= k < |items| && items[k].Id() == id;
        FindFirst(items, k);
        assert items[k] in multiset(items');
        var k' :| 0 <= k' < |items'| && items'[k'] == items[k];
        FindFirst(items', k');
      }
    }
  }

  lemma {:induction false} HasIdPermutation(items: seq<CartItem>, items': seq<CartItem>, id: string)
    requires multiset(items) == multiset(items')
    ensures HasId(items, id) <==> HasId(items', id)
  {
    if HasId(items', id) {
      var k' :| 0 <= k' < |items'| && items'[k'].Id() == id;
      assert items'[k'] in multiset(items);
      var k :| 0 <= k < |items| && items[k] == items'[k'];
    }
    if HasId(items, id) {
      var k :| 0 <= k < |items| && items[k].Id() == id;
      assert items[k] in multiset(items');
      var k' :| 0 <= k' < |items'| && items'[k'] == items[k];
    }
  }

  /** The bundle line is not excluded from the other items: when the bundle
      product lies outside the 'Note' category, each of its q units is
      charged the full-access price and its own price as well. */
  lemma {:induction false} BundleOutsideNotesChargedTwice(items: seq<CartItem>, bundleId: Option<string>, k: int)
    requires 0 <= k < |items| && bundleId == Some(items[k].Id()) && items[k].quantity > 0
    requires forall j :: 0 <= j < k ==> items[j].Id() != items[k].Id()
    requires items[k].product.category != NoteCategory
    ensures CalculateCartTotals(items, bundleId).total ==
            items[k].quantity * PriceFullAccess + items[k].quantity * items[k].product.price
            + NonNoteCost(items[..k] + items[k + 1..])
  {
    BundleOverridesTiers(items, bundleId, k);
    NonNoteCostWithout(items, k);
  }

  /** The non-note cost splits into one line's share and the rest's. */
  lemma {:induction false} NonNoteCostWithout(items: seq<CartItem>, k: int)
    requires 0 <= k < |items|
    ensures NonNoteCost(items) ==
            (if IsOther(items[k]) then LineTotal(items[k]) else 0) + NonNoteCost(items[..k] + items[k + 1..])
  {
    var f := Masked(IsOther, LineTotal);
    assert items == items[..k] + ([items[k]] + items[k + 1..]);
    SumOfConcat(items[..k], [items[k]] + items[k + 1..], f);
    SumOfConcat([items[k]], items[k + 1..], f);
    SumOfConcat(items[..k], items[k + 1..], f);
    assert SumOf([items[k]], f) == f(items[k]) + SumOf([items[k]][1..], f);
    assert [items[k]][1..] == [];
  }
}
