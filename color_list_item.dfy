/**
 * ColorListItem: a media list item of a color facet that also carries a color
 * code. Its parent item keeps id, label, active flag, media and attributes.
 */
module FacetResult {
  import opened Wrappers

  /** A list item id: PHP accepts an int or a string. */
  datatype ItemId = IntId(n: int) | StringId(s: string)

  class ColorListItem {
    var id: ItemId
    var itemLabel: string
    var active: bool
    /** The parent's media; a color item never has one. */
    var media: Option<string>
    var attributes: map<string, string>
    var colorcode: Option<string>

    /** The parent gets id, label, active and attributes, and no media; the color code is `color`. */
    constructor (id: ItemId, itemLabel: string, active: bool, color: Option<string> := None,
                 attributes: map<string, string> := map[])
      ensures this.id == id && this.itemLabel == itemLabel && this.active == active
      ensures this.media == None && this.attributes == attributes
      ensures GetColorcode() == color
    {
      this.id := id;
      this.itemLabel := itemLabel;
      this.active := active;
      this.media := None;
      this.attributes := attributes;
      this.colorcode := color;
    }

    function GetColorcode(): Option<string>
      reads this
    {
      colorcode
    }

    /** setColorcode: replaces the color code and nothing else. */
    method SetColorcode(c: Option<string>)
      modifies this
      ensures colorcode == c
      ensures id == old(id) && itemLabel == old(itemLabel) && active == old(active)
      ensures media == old(media) && attributes == old(attributes)
    {
      colorcode := c;
    }
  }

  /** A color item built without a color or attributes has a null color code and no attributes. */
  method CreateWithDefaults(id: ItemId, itemLabel: string, active: bool) returns (item: ColorListItem)
    ensures fresh(item)
    ensures item.GetColorcode() == None && item.attributes == map[] && item.media == None
  {
    item := new ColorListItem(id, itemLabel, active);
  }

  /** What setColorcode stores, getColorcode returns; the rest of the item is as built. */
  method SetThenGet(item: ColorListItem, c: Option<string>) returns (read: Option<string>)
    modifies item
    ensures read == c
    ensures item.id == old(item.id) && item.itemLabel == old(item.itemLabel) && item.active == old(item.active)
    ensures item.media == old(item.media) && item.attributes == old(item.attributes)
  {
    item.SetColorcode(c);
    read := item.GetColorcode();
  }
}
