/** A titled, ordered list of display items that the controller fills in place. */
module InfoItemGroup {
  import opened Wrappers
  import opened InfoItem

  class InfoItemGroup {
    const id: int
    var titleText: Option<Text>
    var items: seq<InfoItem>
    var footerText: Option<Text>

    /** `init(id:)`: no items, no title, no footer. */
    constructor (id: int)
      ensures this.id == id && items == [] && titleText == None && footerText == None
    {
      this.id := id;
      titleText := None;
      items := [];
      footerText := None;
    }

    /** `init(id:items:)` */
    constructor WithItems(id: int, items: seq<InfoItem>)
      ensures this.id == id && this.items == items && titleText == None && footerText == None
    {
      this.id := id;
      titleText := None;
      this.items := items;
      footerText := None;
    }

    /** `init(id:titleText:items:)` */
    constructor WithTitle(id: int, titleText: Text, items: seq<InfoItem>)
      ensures this.id == id && this.items == items && this.titleText == Some(titleText) && footerText == None
    {
      this.id := id;
      this.titleText := Some(titleText);
      this.items := items;
      footerText := None;
    }

    /** `init(id:items:footerText:)` */
    constructor WithFooter(id: int, items: seq<InfoItem>, footerText: Text)
      ensures this.id == id && this.items == items && titleText == None && this.footerText == Some(footerText)
    {
      this.id := id;
      titleText := None;
      this.items := items;
      this.footerText := Some(footerText);
    }

    /** `init(id:titleText:items:footerText:)` */
    constructor WithTitleAndFooter(id: int, titleText: Text, items: seq<InfoItem>, footerText: Text)
      ensures this.id == id && this.items == items
      ensures this.titleText == Some(titleText) && this.footerText == Some(footerText)
    {
      this.id := id;
      this.titleText := Some(titleText);
      this.items := items;
      this.footerText := Some(footerText);
    }

    /** Appends one item at the end; earlier items stay where they were. */
    method AddItem(item: InfoItem)
      modifies this
      ensures items == old(items) + [item]
      ensures |items| == |old(items)| + 1 && items[..|old(items)|] == old(items)
      ensures titleText == old(titleText) && footerText == old(footerText)
    {
      items := items + [item];
    }

    /** Appends the new items, in their order, after the existing ones. */
    method AddItems(newItems: seq<InfoItem>)
      modifies this
      ensures items == old(items) + newItems
      ensures titleText == old(titleText) && footerText == old(footerText)
    {
      items := items + newItems;
    }

    /** Removes every item; id, title and footer are kept. */
    method ClearItems()
      modifies this
      ensures items == []
      ensures titleText == old(titleText) && footerText == old(footerText)
    {
      items := [];
    }
  }
}
