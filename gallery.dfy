/**
 * The saved-artwork store of lib/gallery.ts: a list kept newest first, to
 * which `addItem` prepends and from which `removeItem` filters by id.
 */
module Gallery {
  import opened Types

  datatype ItemType = Png | Gif

  datatype GalleryItem = GalleryItem(
    id: string, kind: ItemType, dataURL: string, parameters: ArtParameters, timestamp: int)

  /**
   * load: with no window (on the server), with nothing or the empty string
   * stored, or when `JSON.parse` fails, the list is empty; otherwise it is
   * what the stored text parses to. `parse` stands for `JSON.parse`.
   */
  function Load(onServer: bool, raw: Option<string>, parse: string -> Option<seq<GalleryItem>>)
    : (items: seq<GalleryItem>)
    ensures onServer || raw.None? || raw == Some("") ==> items == []
    ensures !onServer && raw.Some? && raw.value != "" && parse(raw.value).None? ==> items == []
    ensures !onServer && raw.Some? && raw.value != "" && parse(raw.value).Some? ==> items == parse(raw.value).value
  {
    if onServer then []
    else match raw
      case None => []
      case Some(text) => if text == "" then [] else parse(text).GetOr([])
  }

  /** `items.filter((i) => i.id !== id)`. */
  function Without(items: seq<GalleryItem>, id: string): (r: seq<GalleryItem>)
    ensures |r| <= |items|
  {
    if items == [] then []
    else (if items[0].id == id then [] else [items[0]]) + Without(items[1..], id)
  }

  /** Filtering splits over a concatenation, so the items kept stay in their order. */
  lemma {:induction false} WithoutAppend(a: seq<GalleryItem>, b: seq<GalleryItem>, id: string)
    ensures Without(a + b, id) == Without(a, id) + Without(b, id)
  {
    if a == [] {
      assert a + b == b;
    } else {
      assert (a + b)[0] == a[0] && (a + b)[1..] == a[1..] + b;
      WithoutAppend(a[1..], b, id);
      var h := if a[0].id == id then [] else [a[0]];
      assert Without(a + b, id) == h + (Without(a[1..], id) + Without(b, id));
      assert h + (Without(a[1..], id) + Without(b, id)) == (h + Without(a[1..], id)) + Without(b, id);
    }
  }

  /** No item with the id survives, and every other item does. */
  lemma {:induction false} WithoutExactly(items: seq<GalleryItem>, id: string, x: GalleryItem)
    ensures x in Without(items, id) <==> x in items && x.id != id
  {
    if items != [] {
      WithoutExactly(items[1..], id, x);
      assert items == [items[0]] + items[1..];
    }
  }

  /** Removing an id that no item has leaves the list as it is. */
  lemma {:induction false} WithoutAbsent(items: seq<GalleryItem>, id: string)
    requires forall i :: 0 <= i < |items| ==> items[i].id != id
    ensures Without(items, id) == items
  {
    if items != [] {
      WithoutAbsent(items[1..], id);
      assert items == [items[0]] + items[1..];
    }
  }

  /** Adding an item with a fresh id and then removing that id restores the list. */
  lemma AddThenRemove(items: seq<GalleryItem>, item: GalleryItem)
    requires forall i :: 0 <= i < |items| ==> items[i].id != item.id
    ensures Without([item] + items, item.id) == items
  {
    WithoutAppend([item], items, item.id);
    WithoutAbsent(items, item.id);
  }

  /** The list as `localStorage` holds it, in a browser. */
  class Store {
    var items: seq<GalleryItem>

    constructor ()
      ensures items == []
    {
      items := [];
    }

    /** addItem: `unshift` puts the new item in front of the ones already stored. */
    method AddItem(item: GalleryItem)
      modifies this
      ensures items == [item] + old(items)
    {
      items := [item] + items;
    }

    /** getItems: the stored list. */
    method GetItems() returns (r: seq<GalleryItem>)
      ensures r == items
    {
      r := items;
    }

    /** removeItem: the stored list without the items carrying `id`. */
    method RemoveItem(id: string)
      modifies this
      ensures items == Without(old(items), id)
    {
      items := Without(items, id);
    }
  }
}
