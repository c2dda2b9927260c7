/** The loop in `search_google_images_async` that turns the search API's `items` into the result
    list. The HTTP request before it is not modelled: the items are the input. */
module ImageSearch {
  import opened Wrappers
  import opened Text

  /** The `image` entry of an item: the three keys the loop reads (absent keys are `None`), and
      whether the dict holds any other key, such as `contextLink`. */
  datatype ImageInfo = ImageInfo(thumbnailLink: Option<string>, width: Option<int>, height: Option<int>,
                                 otherKeys: bool)
  {
    /** A dict is truthy exactly when it has at least one key. */
    predicate NonEmpty()
    {
      thumbnailLink.Some? || width.Some? || height.Some? || otherKeys
    }
  }

  /** One entry of `items`; absent keys are `None`. */
  datatype Item = Item(image: Option<ImageInfo>, snippet: Option<string>, link: Option<string>)

  datatype ImageResult = ImageResult(
    id: string, snippet: string, link: string, thumbnailLink: string, width: int, height: int, rank: int)

  /** `if not image`: the entry is absent (or null) or an empty dict. */
  predicate Skipped(item: Item)
  {
    item.image.None? || !item.image.value.NonEmpty()
  }

  /** The result dict for the item at index i, with the documented defaults. */
  function Entry(i: nat, item: Item): (r: ImageResult)
    requires !Skipped(item)
    ensures r.id == "img_" + NatToString(i + 1) && r.rank == i + 1
    ensures item.snippet.None? ==> r.snippet == ""
    ensures item.link.None? ==> r.link == ""
    ensures item.image.value.thumbnailLink.None? ==> r.thumbnailLink == ""
    ensures item.image.value.width.None? ==> r.width == 0
    ensures item.image.value.height.None? ==> r.height == 0
    ensures item.snippet.Some? ==> r.snippet == item.snippet.value
    ensures item.link.Some? ==> r.link == item.link.value
    ensures item.image.value.thumbnailLink.Some? ==> r.thumbnailLink == item.image.value.thumbnailLink.value
    ensures item.image.value.width.Some? ==> r.width == item.image.value.width.value
    ensures item.image.value.height.Some? ==> r.height == item.image.value.height.value
  {
    var image := item.image.value;
    ImageResult("img_" + NatToString(i + 1), item.snippet.GetOr(""), item.link.GetOr(""),
                image.thumbnailLink.GetOr(""), image.width.GetOr(0), image.height.GetOr(0), i + 1)
  }

  /** The results for the first n items: one entry per item that is not skipped, in item order. */
  function Shaped(items: seq<Item>, n: nat): seq<ImageResult>
    requires n <= |items|
  {
    if n == 0 then []
    else Shaped(items, n - 1) + (if Skipped(items[n - 1]) then [] else [Entry(n - 1, items[n - 1])])
  }

  /** The loop over `enumerate(items)`. */
  method ShapeResults(items: seq<Item>) returns (result: seq<ImageResult>)
    ensures result == Shaped(items, |items|)
    ensures |items| == 0 ==> result == []
  {
    if |items| == 0 {
      return [];
    }
    result := [];
    var i := 0;
    while i < |items|
      invariant 0 <= i <= |items|
      invariant result == Shaped(items, i)
    {
      var item := items[i];
      if !Skipped(item) {
        result := result + [Entry(i, item)];
      }
      i := i + 1;
    }
  }

  /** At most one result per item, each the entry of the item its rank points at, which is an
      item that is not skipped. */
  lemma {:induction false} ShapedEntries(items: seq<Item>, n: nat)
    requires n <= |items|
    ensures |Shaped(items, n)| <= n
    ensures forall j :: 0 <= j < |Shaped(items, n)| ==>
      var e := Shaped(items, n)[j];
      1 <= e.rank <= n && !Skipped(items[e.rank - 1]) && e == Entry(e.rank - 1, items[e.rank - 1])
  {
    if n > 0 {
      ShapedEntries(items, n - 1);
    }
  }

  /** Ranks strictly increase along the result, so the result keeps the item order. */
  lemma {:induction false} ShapedRanksIncrease(items: seq<Item>, n: nat)
    requires n <= |items|
    ensures forall j, k :: 0 <= j < k < |Shaped(items, n)| ==> Shaped(items, n)[j].rank < Shaped(items, n)[k].rank
  {
    if n > 0 {
      ShapedRanksIncrease(items, n - 1);
      ShapedEntries(items, n - 1);
    }
  }

  /** Every item that is not skipped has a result. */
  lemma {:induction false} ShapedComplete(items: seq<Item>, n: nat, i: nat)
    requires i < n <= |items| && !Skipped(items[i])
    ensures exists j :: 0 <= j < |Shaped(items, n)| && Shaped(items, n)[j].rank == i + 1
  {
    var prev := Shaped(items, n - 1);
    var cur := Shaped(items, n);
    assert cur == prev + (if Skipped(items[n - 1]) then [] else [Entry(n - 1, items[n - 1])]);
    if i == n - 1 {
      assert cur[|prev|].rank == i + 1;
    } else {
      ShapedComplete(items, n - 1, i);
      var j :| 0 <= j < |prev| && prev[j].rank == i + 1;
      assert cur[j] == prev[j];
    }
  }

  /** An image dict holding none of the three keys the loop reads, but some other key, is still
      truthy: the item gets an entry with the default thumbnail link and size. */
  lemma OtherKeysOnlyKept(link: string)
    ensures var items := [Item(Some(ImageInfo(None, None, None, true)), None, Some(link))];
      Shaped(items, 1) == [ImageResult("img_1", "", link, "", 0, 0, 1)]
  {
    var items := [Item(Some(ImageInfo(None, None, None, true)), None, Some(link))];
    assert !Skipped(items[0]);
    assert Shaped(items, 0) == [];
    assert NatToString(1) == [DigitChar(1)] == "1";
    assert Entry(0, items[0]) == ImageResult("img_1", "", link, "", 0, 0, 1);
  }

  /** Ids are unique: different results have different ids. */
  lemma IdsUnique(items: seq<Item>, j: nat, k: nat)
    requires j < k < |Shaped(items, |items|)|
    ensures Shaped(items, |items|)[j].id != Shaped(items, |items|)[k].id
  {
    var s := Shaped(items, |items|);
    ShapedRanksIncrease(items, |items|);
    ShapedEntries(items, |items|);
    if s[j].id == s[k].id {
      var a := NatToString(s[j].rank);
      var b := NatToString(s[k].rank);
      assert s[j].id == "img_" + a && s[k].id == "img_" + b;
      assert a == s[j].id[4..] && b == s[k].id[4..];
      NatToStringInjective(s[j].rank, s[k].rank);
    }
  }
}
