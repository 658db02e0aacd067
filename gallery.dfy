/** The event gallery: six fixed showcase items and a row of category
    buttons that filter them by type. */
module Gallery {
  import opened Seqs

  datatype Item = Item(id: nat, kind: string, title: string, image: string)

  /** `galleryItems`, in display order, which is also increasing `id`
      order. */
  const Items: seq<Item> := [
    Item(1, "Wedding", "Elegant Garden Wedding", "/wedding-ceremony.jpg"),
    Item(2, "Birthday", "Colorful Birthday Bash", "/birthday-party-decorations.jpg"),
    Item(3, "Baby Shower", "Pastel Baby Shower", "/baby-shower-setup.jpg"),
    Item(4, "Corporate", "Corporate Gala", "/corporate-event.jpg"),
    Item(5, "Wedding", "Beach Wedding", "/beach-wedding.jpg"),
    Item(6, "Party", "Festive Party Night", "/party-celebration.jpg")
  ]

  /** The category buttons, "All" first. */
  const Categories: seq<string> := ["All", "Wedding", "Birthday", "Baby Shower", "Corporate", "Party"]

  function ItemId(item: Item): int {
    item.id
  }

  lemma ItemsInIdOrder()
    ensures forall i, j :: 0 <= i < j < |Items| ==> ItemId(Items[i]) < ItemId(Items[j])
  {
    forall i, j | 0 <= i < j < |Items|
      ensures ItemId(Items[i]) < ItemId(Items[j])
    {
      assert forall k :: 0 <= k < |Items| ==> ItemId(Items[k]) == k + 1;
    }
  }

  function OfKind(kind: string): Item -> bool {
    (item: Item) => item.kind == kind
  }

  /** `filtered`: everything under "All", otherwise the items of that type
      in their display order. */
  function Filtered(filter: string): (r: seq<Item>)
    ensures filter == "All" ==> r == Items
    ensures filter != "All" ==> forall i :: 0 <= i < |r| ==> r[i] in Items && r[i].kind == filter
    ensures filter != "All" ==> forall i :: 0 <= i < |Items| && Items[i].kind == filter ==> Items[i] in r
    ensures forall i, j :: 0 <= i < j < |r| ==> r[i].id < r[j].id
  {
    ItemsInIdOrder();
    if filter == "All" then Items
    else
      FilterMembers(Items, OfKind(filter));
      FilterKeepsOrder(Items, OfKind(filter), ItemId);
      Filter(Items, OfKind(filter))
  }

  /** "All" is not an item type, so filtering by it literally would show
      nothing: the special case is what makes the first button show the
      whole gallery. */
  lemma AllIsNotAType()
    ensures Filter(Items, OfKind("All")) == []
    ensures Filtered("All") == Items
  {
    var p := OfKind("All");
    assert !p(Items[0]) && !p(Items[1]) && !p(Items[2]) && !p(Items[3]) && !p(Items[4]) && !p(Items[5]);
    assert Items[5..] == [Items[5]];
    assert Filter(Items[5..], p) == [] by {
      assert Items[5..][1..] == [];
    }
    assert Items[4..] == [Items[4]] + Items[5..];
    assert Items[3..] == [Items[3]] + Items[4..];
    assert Items[2..] == [Items[2]] + Items[3..];
    assert Items[1..] == [Items[1]] + Items[2..];
    assert Filter(Items[4..], p) == [] by { assert Items[4..][1..] == Items[5..]; }
    assert Filter(Items[3..], p) == [] by { assert Items[3..][1..] == Items[4..]; }
    assert Filter(Items[2..], p) == [] by { assert Items[2..][1..] == Items[3..]; }
    assert Filter(Items[1..], p) == [] by { assert Items[1..][1..] == Items[2..]; }
  }

  /** Every category button except "All" names the type of at least one
      item, so no button leads to an empty gallery. */
  lemma EveryCategoryShowsSomething(k: nat)
    requires k < |Categories|
    ensures Filtered(Categories[k]) != []
  {
    var c := Categories[k];
    if c != "All" {
      var i := if k == 5 then 5 else k - 1;
      assert Items[i].kind == c;
      assert Items[i] in Filtered(c);
    }
  }

  /** The page's state: the selected category. */
  class GalleryPage {
    var filter: string

    constructor ()
      ensures filter == "All" && Filtered(filter) == Items
    {
      filter := "All";
    }

    /** A category button. */
    method Click(category: string)
      modifies this
      ensures filter == category
    {
      filter := category;
    }
  }
}
