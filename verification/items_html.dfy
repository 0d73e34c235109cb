/** `generate_items_html`: the pre-rendered `<tr>` rows of the item table, for
    templates that inline markup instead of iterating over the items. */
module ItemTable {
  import opened Json

  /** The text of one cell: `item.get(key, '')` rendered by an f-string. */
  function Cell(item: Item, key: string): string
  {
    if key in item then Text(item[key]) else ""
  }

  function Spaces(n: nat): (r: string)
    ensures |r| == n && forall i :: 0 <= i < n ==> r[i] == ' '
  {
    if n == 0 then "" else Spaces(n - 1) + " "
  }

  function CellLine(item: Item, key: string): string
  {
    Spaces(24) + "<td>" + Cell(item, key) + "</td>\n"
  }

  /** One row: a newline, an indented `<tr>`, the four cells name, quantity,
      price and total, and an indented `</tr>`. */
  function Row(item: Item): string
  {
    "\n" + Spaces(20) + "<tr>\n"
    + CellLine(item, "name") + CellLine(item, "quantity")
    + CellLine(item, "price") + CellLine(item, "total")
    + Spaces(20) + "</tr>"
  }

  /** `sep.join(parts)`. */
  function Join(parts: seq<string>, sep: string): string
  {
    if parts == [] then ""
    else if |parts| == 1 then parts[0]
    else Join(parts[..|parts| - 1], sep) + sep + parts[|parts| - 1]
  }

  /** One row per item, in input order. */
  function Rows(items: seq<Item>): (r: seq<string>)
    ensures |r| == |items| && forall i :: 0 <= i < |items| ==> r[i] == Row(items[i])
  {
    seq(|items|, i requires 0 <= i < |items| => Row(items[i]))
  }

  /** The markup `generate_items_html` returns for `items`. */
  function ItemsHtml(items: seq<Item>): string
  {
    Join(Rows(items), "\n")
  }

  /** `generate_items_html`: builds the list of rows one item at a time and joins
      it with newlines. */
  method GenerateItemsHtml(items: seq<Item>) returns (html: string)
    ensures html == ItemsHtml(items)
    ensures items == [] ==> html == ""
    ensures |items| == 1 ==> html == Row(items[0])
  {
    var rows: seq<string> := [];
    for i := 0 to |items|
      invariant |rows| == i
      invariant forall k :: 0 <= k < i ==> rows[k] == Row(items[k])
    {
      rows := rows + [Row(items[i])];
    }
    assert rows == Rows(items);
    html := Join(rows, "\n");
  }

  /** Joining splits at any inner position: the rows before it, the separator,
      the rows from it on. */
  lemma {:induction false} JoinSplit(parts: seq<string>, sep: string, i: nat)
    requires 0 < i < |parts|
    ensures Join(parts, sep) == Join(parts[..i], sep) + sep + Join(parts[i..], sep)
    decreases |parts|
  {
    var init, last := parts[..|parts| - 1], parts[|parts| - 1];
    if i == |parts| - 1 {
      assert parts[..i] == init;
      assert parts[i..] == [last];
    } else {
      JoinSplit(init, sep, i);
      assert init[..i] == parts[..i];
      var rest := parts[i..];
      assert |rest| > 1;
      assert rest[..|rest| - 1] == init[i..];
      assert rest[|rest| - 1] == last;
    }
  }

  /** The rows of a prefix and of a suffix are the prefix and the suffix of the rows. */
  lemma RowsSlices(items: seq<Item>, i: nat)
    requires i <= |items|
    ensures Rows(items)[..i] == Rows(items[..i])
    ensures Rows(items)[i..] == Rows(items[i..])
  {
    var rs, front, back := Rows(items), Rows(items[..i]), Rows(items[i..]);
    forall k | 0 <= k < i
      ensures rs[..i][k] == front[k]
    {
      assert items[..i][k] == items[k];
    }
    forall k | 0 <= k < |items| - i
      ensures rs[i..][k] == back[k]
    {
      assert items[i..][k] == items[i + k];
    }
  }

  /** The markup of a list is the markup of any split of it, joined by a
      newline: the rows keep the items' order. */
  lemma ItemsHtmlInOrder(items: seq<Item>, i: nat)
    requires 0 < i < |items|
    ensures ItemsHtml(items) == ItemsHtml(items[..i]) + "\n" + ItemsHtml(items[i..])
  {
    var rs := Rows(items);
    JoinSplit(rs, "\n", i);
    RowsSlices(items, i);
  }

  /** The markup grows by a newline and one row per appended item. */
  lemma ItemsHtmlAppend(items: seq<Item>, x: Item)
    requires items != []
    ensures ItemsHtml(items + [x]) == ItemsHtml(items) + "\n" + Row(x)
  {
    var rs := Rows(items + [x]);
    assert rs[..|rs| - 1] == Rows(items);
  }

  /** A missing field renders exactly as an empty string would. */
  lemma MissingFieldRendersEmpty(item: Item, key: string)
    requires key !in item
    ensures Row(item) == Row(item[key := Str("")])
  {
    assert Cell(item, key) == Cell(item[key := Str("")], key);
  }
}
