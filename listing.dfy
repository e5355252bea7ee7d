/** The listing form of `src/components/ListingModal.jsx`: the tiered
    deposit rule, the construction of a new catalog record from the form,
    the simulated upload and the reset after submit. */
module Listing {
  import opened Text
  import opened Catalog

  /** The form state. The two price fields hold the raw input text;
      turning them into numbers is the caller's job (see `Submit`). */
  datatype FormData = FormData(
    title: string,
    category: string,
    size: string,
    priceBuy: string,
    priceRent: string,
    description: string,
    image: string,
    condition: string)

  /** The form's initial state, restored after every submit. */
  const InitialForm := FormData("", "Casual", "M", "", "", "", "", "Good")

  /** The four categories the form's select offers. */
  const SelectableCategories: seq<string> := ["Casual", "Formal", "Outerwear", "Accessories"]

  /** The image used when the form has none. */
  const PlaceholderImage := "https://images.unsplash.com/photo-1556905055-8f358a7a47b2?auto=format&fit=crop&q=80&w=800"

  /** The images the simulated upload picks from. */
  const UploadImages: seq<string> := [
    "https://images.unsplash.com/photo-1595777457583-95e059d581b8?auto=format&fit=crop&q=80&w=800",
    "https://images.unsplash.com/photo-1539008835657-9e8e9680c956?auto=format&fit=crop&q=80&w=800",
    "https://images.unsplash.com/photo-1572804013309-59a88b7e92f1?auto=format&fit=crop&q=80&w=800",
    "https://images.unsplash.com/photo-1550928431-ee0ec6db30d3?auto=format&fit=crop&q=80&w=800"
  ]

  /** The fixed seller identity stamped on every new listing. */
  const OwnSeller := "You (Student)"
  const OwnSellerRating := 5.0
  const OwnSellerYear := "Batch 2025"

  /** The tag every new listing carries besides its category. */
  const NewArrivalTag := "new-arrival"

  /** Tiered deposit by category: 75 for formal wear, 30 for outerwear,
      10 for everything else. */
  function SuggestedDeposit(category: string): (d: nat)
    ensures d == 75 || d == 30 || d == 10
    ensures d == 75 <==> category == "Formal" || category == "Gala"
    ensures d == 30 <==> category == "Outerwear" || category == "Coat"
  {
    if category == "Formal" || category == "Gala" then 75
    else if category == "Outerwear" || category == "Coat" then 30
    else 10
  }

  /** The deposit each selectable category gets. */
  lemma SelectableDeposits()
    ensures SuggestedDeposit(SelectableCategories[0]) == 10
    ensures SuggestedDeposit(SelectableCategories[1]) == 75
    ensures SuggestedDeposit(SelectableCategories[2]) == 30
    ensures SuggestedDeposit(SelectableCategories[3]) == 10
  {
  }

  /** The record `handleSubmit` builds. `id` stands for `Date.now()`, and
      `priceRent`/`priceBuy` for `Number(...)` of the form's price fields. */
  function NewItem(form: FormData, id: int, priceRent: nat, priceBuy: nat): (item: Item)
    ensures item.image != ""
    ensures |item.tags| == 2 && NewArrivalTag in item.tags
    ensures item.deposit in {75, 30, 10}
  {
    Item(
      id := id,
      title := form.title,
      category := form.category,
      size := form.size,
      condition := form.condition,
      description := form.description,
      image := if form.image != "" then form.image else PlaceholderImage,
      priceRent := priceRent,
      priceBuy := priceBuy,
      deposit := SuggestedDeposit(form.category),
      tags := [Lower(form.category), NewArrivalTag],
      seller := OwnSeller,
      sellerRating := OwnSellerRating,
      sellerYear := OwnSellerYear)
  }

  /** The form's descriptive fields go into the record unchanged. */
  lemma NewItemCopiesForm(form: FormData, id: int, priceRent: nat, priceBuy: nat)
    ensures var item := NewItem(form, id, priceRent, priceBuy);
      && item.id == id
      && item.title == form.title
      && item.category == form.category
      && item.size == form.size
      && item.condition == form.condition
      && item.description == form.description
      && item.priceRent == priceRent
      && item.priceBuy == priceBuy
  {
  }

  /** The seller identity is fixed, whatever the form says. */
  lemma NewItemSeller(form: FormData, id: int, priceRent: nat, priceBuy: nat)
    ensures var item := NewItem(form, id, priceRent, priceBuy);
      item.seller == "You (Student)" && item.sellerRating == 5.0 && item.sellerYear == "Batch 2025"
  {
  }

  /** The deposit is the category's tier; the tags are exactly the
      lower-cased category followed by "new-arrival". */
  lemma NewItemDepositAndTags(form: FormData, id: int, priceRent: nat, priceBuy: nat)
    ensures var item := NewItem(form, id, priceRent, priceBuy);
      item.deposit == SuggestedDeposit(form.category) && item.tags == [Lower(form.category), "new-arrival"]
  {
  }

  /** The form's image when one was given, the placeholder otherwise. */
  lemma NewItemImage(form: FormData, id: int, priceRent: nat, priceBuy: nat)
    ensures var item := NewItem(form, id, priceRent, priceBuy);
      (form.image != "" ==> item.image == form.image) && (form.image == "" ==> item.image == PlaceholderImage)
  {
  }

  /** A new listing shows up both under its own lower-cased category and
      under the "new-arrival" tag. */
  lemma NewItemMatchesOwnFilters(form: FormData, id: int, priceRent: nat, priceBuy: nat)
    ensures Keeps(NewItem(form, id, priceRent, priceBuy), "", Lower(form.category))
    ensures Keeps(NewItem(form, id, priceRent, priceBuy), "", NewArrivalTag)
  {
  }

  /** A newly listed formal blazer: deposit 75, tags "formal" and
      "new-arrival". */
  lemma NavyBlazerExample(id: int)
    ensures var item := NewItem(InitialForm.(title := "Navy Blazer", category := "Formal"), id, 10, 50);
      && item.deposit == 75
      && item.tags == ["formal", "new-arrival"]
      && item.priceRent == 10 && item.priceBuy == 50
      && item.image == PlaceholderImage
  {
    var form := InitialForm.(title := "Navy Blazer", category := "Formal");
    assert Lower(form.category) == "formal" by {
      assert |Lower(form.category)| == 6;
      assert Lower(form.category)[0] == LowerChar('F');
    }
  }

  /** The listing form's state (`formData` in the component). */
  class ListingForm {
    var formData: FormData

    constructor ()
      ensures formData == InitialForm
    {
      formData := InitialForm;
    }

    /** Picks one of the four fixed images and leaves every other field
        alone; `handleSimulateUpload` picks with `Math.random`. */
    method SimulateUpload()
      modifies this
      ensures formData.image in UploadImages
      ensures formData == old(formData).(image := formData.image)
    {
      var k :| 0 <= k < |UploadImages|;
      formData := formData.(image := UploadImages[k]);
    }

    /** Builds the new record from the current form, then resets the form. */
    method Submit(id: int, priceRent: nat, priceBuy: nat) returns (item: Item)
      modifies this
      ensures item == NewItem(old(formData), id, priceRent, priceBuy)
      ensures formData == InitialForm
    {
      item := NewItem(formData, id, priceRent, priceBuy);
      formData := InitialForm;
    }
  }
}
