/** `EstimatePDFGenerator`: the template cache, the output file name, and the
    assembly of the flat value set handed to the template engine. Rendering
    the template and writing the PDF happen in libraries outside this model:
    `GeneratePdf` returns the job that would be handed to them. */
module PdfGenerator {
  import opened Wrappers
  import opened Money
  import opened Json
  import opened ItemCalc
  import opened Totals
  import opened ItemTable

  // ---------------------------------------------------------------------
  // Records, views, templates
  // ---------------------------------------------------------------------

  /** A loaded estimate record. Each field is `None` when its key is absent. */
  datatype Record = Record(
    receiver: Option<map<string, Value>>,
    supplier: Option<map<string, Value>>,
    items: Option<seq<Item>>,
    tax: Option<int>,
    docNumber: Option<Value>,
    date: Option<Value>,
    supplyPrice: Option<Value>,
    taxAmount: Option<Value>,
    totalAmount: Option<Value>)

  /** The named values handed to the template: flat fields, their aliases, the
      pre-rendered item rows, and the nested party and item structures. */
  datatype View = View(
    title: string,
    docNumber: Value,
    date: Value,
    tax: int,
    totalAmount: Value,
    supplyPrice: Value,
    taxAmount: Value,
    totalTaxAmount: string,
    totalQuantity: int,
    subtotalStr: Value,
    taxAmountStr: Value,
    grandTotalStr: Value,
    receiverName: Value,
    receiverCeo: Value,
    supplierName: Value,
    supplierCeo: Value,
    supplierRegId: Value,
    supplierAddress: Value,
    supplierContact: Value,
    itemsRows: string,
    receiver: map<string, Value>,
    supplier: map<string, Value>,
    items: seq<Item>)

  /** A compiled template; compilation itself belongs to the template engine. */
  datatype Template = Template(source: string)

  datatype Error = MissingTemplate(path: string)

  /** What `generate_pdf` hands to the renderer: where to write, with which template, what. */
  datatype PdfJob = PdfJob(outputPath: string, templateName: string, template: Template, view: View)

  const DefaultTemplate: string := "clean_gradient"
  const DefaultTaxPercent: int := 10
  /** The two document titles: "견 적 서" (estimate) and "거 래 명 세 서" (statement). */
  const EstimateTitle: string := "\U{acac} \U{c801} \U{c11c}"
  const StatementTitle: string := "\U{ac70} \U{b798} \U{ba85} \U{c138} \U{c11c}"

  function TemplatePath(name: string): string
  {
    "template/" + name + ".html"
  }

  function TaxPercent(data: Record): int
  {
    data.tax.GetOr(DefaultTaxPercent)
  }

  function ItemsOf(data: Record): seq<Item>
  {
    data.items.GetOr([])
  }

  // ---------------------------------------------------------------------
  // Template name and output path
  // ---------------------------------------------------------------------

  /** An override is used when it is truthy; otherwise the default template. */
  function TemplateName(templateOverride: Option<string>): (name: string)
    ensures templateOverride.Some? && templateOverride.value != "" ==> name == templateOverride.value
    ensures templateOverride.None? || templateOverride.value == "" ==> name == DefaultTemplate
    ensures name != ""
  {
    match templateOverride
    case Some(n) => if n != "" then n else DefaultTemplate
    case None => DefaultTemplate
  }

  /** `s.replace(' ', '')`. */
  function RemoveSpaces(s: string): (r: string)
    ensures ' ' !in r
    ensures ' ' !in s ==> r == s
    ensures forall c :: c != ' ' ==> multiset(r)[c] == multiset(s)[c]
  {
    if s == [] then ""
    else
      assert s == [s[0]] + s[1..];
      (if s[0] == ' ' then "" else [s[0]]) + RemoveSpaces(s[1..])
  }

  /** Removing spaces works piecewise, so the other characters keep their order. */
  lemma {:induction false} RemoveSpacesAppend(a: string, b: string)
    ensures RemoveSpaces(a + b) == RemoveSpaces(a) + RemoveSpaces(b)
  {
    if a == [] {
      assert a + b == b;
    } else {
      var ab := a + b;
      var head := if a[0] == ' ' then "" else [a[0]];
      assert ab[0] == a[0] && ab[1..] == a[1..] + b;
      RemoveSpacesAppend(a[1..], b);
      calc {
        RemoveSpaces(ab);
        head + RemoveSpaces(a[1..] + b);
        head + (RemoveSpaces(a[1..]) + RemoveSpaces(b));
        (head + RemoveSpaces(a[1..])) + RemoveSpaces(b);
        RemoveSpaces(a) + RemoveSpaces(b);
      }
    }
  }

  /** `output/{stem}_{template}_{title without spaces}.pdf`. */
  function DefaultOutputPath(stem: string, template: string, title: string): string
  {
    "output/" + stem + "_" + template + "_" + RemoveSpaces(title) + ".pdf"
  }

  /** An explicit output path wins, even an empty one; otherwise the default name. */
  function ResolveOutputPath(outputPath: Option<string>, stem: string, template: string, title: string): (p: string)
    ensures outputPath.Some? ==> p == outputPath.value
    ensures outputPath.None? ==> p == DefaultOutputPath(stem, template, title)
  {
    match outputPath
    case Some(path) => path
    case None => DefaultOutputPath(stem, template, title)
  }

  /** For one record and template, two titles share an output file exactly when
      they agree once spaces are removed. */
  lemma OutputPathDeterminedByTitle(stem: string, template: string, t1: string, t2: string)
    ensures DefaultOutputPath(stem, template, t1) == DefaultOutputPath(stem, template, t2)
            <==> RemoveSpaces(t1) == RemoveSpaces(t2)
  {
    var pre := "output/" + stem + "_" + template + "_";
    var r1, r2 := RemoveSpaces(t1), RemoveSpaces(t2);
    assert DefaultOutputPath(stem, template, t1) == pre + r1 + ".pdf";
    assert DefaultOutputPath(stem, template, t2) == pre + r2 + ".pdf";
    if pre + r1 + ".pdf" == pre + r2 + ".pdf" {
      assert |r1| == |r2|;
      assert r1 == (pre + r1 + ".pdf")[|pre|..|pre| + |r1|];
      assert r2 == (pre + r2 + ".pdf")[|pre|..|pre| + |r2|];
    }
  }

  /** The estimate and the statement of one record under one template go to
      different files. */
  lemma DocumentTitlesHaveDistinctPaths(stem: string, template: string)
    ensures DefaultOutputPath(stem, template, EstimateTitle) != DefaultOutputPath(stem, template, StatementTitle)
  {
    OutputPathDeterminedByTitle(stem, template, EstimateTitle, StatementTitle);
    var e, t := RemoveSpaces(EstimateTitle), RemoveSpaces(StatementTitle);
    assert e == [EstimateTitle[0]] + RemoveSpaces(EstimateTitle[1..]);
    assert t == [StatementTitle[0]] + RemoveSpaces(StatementTitle[1..]);
    assert e[0] != t[0];
  }

  // ---------------------------------------------------------------------
  // Assembly
  // ---------------------------------------------------------------------

  /** `total_str` is back-filled from `total` (or "0") only when absent. */
  function BackFill(item: Item): Item
  {
    if "total_str" in item then item else item["total_str" := Get(item, "total", Str("0"))]
  }

  /** The items as the template sees them: filled by the aggregator, then back-filled. */
  function FinalItems(items: seq<Item>, percent: int): (r: seq<Item>)
    ensures |r| == |items|
    ensures forall i :: 0 <= i < |items| ==> r[i] == BackFill(FillItem(items[i], percent))
  {
    seq(|items|, i requires 0 <= i < |items| => BackFill(FillItem(items[i], percent)))
  }

  /** The flat value set: record overrides win over the computed figures, the
      aliases repeat the resolved figures, missing text fields become "". */
  function Assemble(data: Record, title: string, computed: ComputedTotals, items: seq<Item>, itemsRows: string): (v: View)
    ensures data.supplyPrice.Some? ==> v.supplyPrice == data.supplyPrice.value
    ensures data.supplyPrice.None? ==> v.supplyPrice == Str(computed.supplyPrice)
    ensures data.taxAmount.Some? ==> v.taxAmount == data.taxAmount.value
    ensures data.taxAmount.None? ==> v.taxAmount == Str(computed.taxAmount)
    ensures data.totalAmount.Some? ==> v.totalAmount == data.totalAmount.value
    ensures data.totalAmount.None? ==> v.totalAmount == Str(computed.totalAmount)
    ensures v.subtotalStr == v.supplyPrice && v.taxAmountStr == v.taxAmount && v.grandTotalStr == v.totalAmount
    ensures v.totalTaxAmount == computed.totalTaxAmount && v.totalQuantity == computed.totalQuantity
    ensures v.title == title && v.tax == TaxPercent(data)
    ensures v.items == items && v.itemsRows == itemsRows
  {
    var receiver := data.receiver.GetOr(map[]);
    var supplier := data.supplier.GetOr(map[]);
    var supplyPrice := data.supplyPrice.GetOr(Str(computed.supplyPrice));
    var taxAmount := data.taxAmount.GetOr(Str(computed.taxAmount));
    var totalAmount := data.totalAmount.GetOr(Str(computed.totalAmount));
    View(
      title := title,
      docNumber := data.docNumber.GetOr(Str("")),
      date := data.date.GetOr(Str("")),
      tax := TaxPercent(data),
      totalAmount := totalAmount,
      supplyPrice := supplyPrice,
      taxAmount := taxAmount,
      totalTaxAmount := computed.totalTaxAmount,
      totalQuantity := computed.totalQuantity,
      subtotalStr := supplyPrice,
      taxAmountStr := taxAmount,
      grandTotalStr := totalAmount,
      receiverName := Get(receiver, "name", Str("")),
      receiverCeo := Get(receiver, "ceo", Str("")),
      supplierName := Get(supplier, "name", Str("")),
      supplierCeo := Get(supplier, "ceo", Str("")),
      supplierRegId := Get(supplier, "reg_id", Str("")),
      supplierAddress := Get(supplier, "address", Str("")),
      supplierContact := Get(supplier, "contact", Str("")),
      itemsRows := itemsRows,
      receiver := receiver,
      supplier := supplier,
      items := items)
  }

  /** The view `generate_pdf` builds for a record and a title. */
  function ViewOf(data: Record, title: string): View
  {
    var items := FinalItems(ItemsOf(data), TaxPercent(data));
    Assemble(data, title, TotalsOf(ItemsOf(data), TaxPercent(data)), items, ItemsHtml(items))
  }

  /** Without overrides the document is self-consistent: its grand total reads
      back as its subtotal plus its tax, and its subtotal is the supply price
      of the record's items. */
  lemma ViewTotalsConsistent(data: Record, title: string, items: seq<Item>, itemsRows: string)
    requires data.supplyPrice.None? && data.taxAmount.None? && data.totalAmount.None?
    ensures var v := Assemble(data, title, TotalsOf(ItemsOf(data), TaxPercent(data)), items, itemsRows);
            && v.subtotalStr.Str? && v.taxAmountStr.Str? && v.grandTotalStr.Str?
            && ParseAmount(v.subtotalStr.s) == Some(Supply(ItemsOf(data)))
            && ParseAmount(v.taxAmountStr.s).Some? && ParseAmount(v.grandTotalStr.s).Some?
            && ParseAmount(v.grandTotalStr.s).value
               == ParseAmount(v.subtotalStr.s).value + ParseAmount(v.taxAmountStr.s).value
  {
    TotalsReadBack(ItemsOf(data), TaxPercent(data));
  }

  /** After assembly every item shows `total_str`; one the record did not give
      mirrors the item's (filled) total. */
  lemma TotalStrMirrorsTotal(item: Item, percent: int)
    ensures var y := BackFill(FillItem(item, percent));
            && "total_str" in y && "total" in y && "tax_amount" in y
            && ("total_str" !in item ==> y["total_str"] == y["total"])
            && ("total_str" in item ==> y["total_str"] == item["total_str"])
  {
  }

  /** `generate_pdf`'s loop that adds `total_str` to each item in place. */
  method BackFillTotalStr(items: array<Item>)
    modifies items
    ensures forall i :: 0 <= i < items.Length ==> items[i] == BackFill(old(items[i]))
  {
    for i := 0 to items.Length
      invariant forall k :: 0 <= k < i ==> items[k] == BackFill(old(items[k]))
      invariant forall k :: i <= k < items.Length ==> items[k] == old(items[k])
    {
      var item := items[i];
      if "total_str" !in item {
        items[i] := item["total_str" := Get(item, "total", Str("0"))];
      }
    }
  }

  // ---------------------------------------------------------------------
  // The generator and its template cache
  // ---------------------------------------------------------------------

  class EstimatePdfGenerator {
    /** Templates loaded so far, by name: filled on first use, never evicted. */
    var templates: map<string, Template>

    constructor()
      ensures templates == map[]
    {
      templates := map[];
    }

    /** `load_template`: a cached template is returned as cached, whatever the
        files now hold; otherwise the file is read and cached, or the call fails
        when the file does not exist. `files` maps each existing path to its text. */
    method LoadTemplate(name: string, files: map<string, string>) returns (r: Result<Template, Error>)
      modifies this
      ensures name in old(templates) ==> r == Ok(old(templates)[name]) && templates == old(templates)
      ensures name !in old(templates) && TemplatePath(name) in files ==>
                r == Ok(Template(files[TemplatePath(name)]))
                && templates == old(templates)[name := r.value]
      ensures name !in old(templates) && TemplatePath(name) !in files ==>
                r == Err(MissingTemplate(TemplatePath(name))) && templates == old(templates)
      ensures r.Ok? ==> name in templates && templates[name] == r.value
      ensures forall k :: k in old(templates) ==> k in templates && templates[k] == old(templates)[k]
    {
      if name !in templates {
        var path := TemplatePath(name);
        if path !in files {
          return Err(MissingTemplate(path));
        }
        templates := templates[name := Template(files[path])];
      }
      r := Ok(templates[name]);
    }

    /** `generate_pdf` for a loaded record whose file stem is `stem`: resolves the
        template and the output path, runs the aggregator on the record's items in
        place, back-fills `total_str`, renders the item rows and assembles the view. */
    method GeneratePdf(stem: string, data: Record, outputPath: Option<string>,
                       templateOverride: Option<string>, docTitle: string,
                       files: map<string, string>)
      returns (r: Result<PdfJob, Error>)
      modifies this
      ensures var name := TemplateName(templateOverride);
              r.Ok? <==> name in old(templates) || TemplatePath(name) in files
      ensures var name := TemplateName(templateOverride);
              r.Err? ==> r.error == MissingTemplate(TemplatePath(name)) && templates == old(templates)
      ensures var name := TemplateName(templateOverride);
              r.Ok? && name in old(templates) ==> templates == old(templates)
      ensures var name := TemplateName(templateOverride);
              r.Ok? && name !in old(templates) ==>
                templates == old(templates)[name := Template(files[TemplatePath(name)])]
      ensures var name := TemplateName(templateOverride);
              r.Ok? ==> && r.value.templateName == name
                        && r.value.outputPath == ResolveOutputPath(outputPath, stem, name, docTitle)
                        && r.value.view == ViewOf(data, docTitle)
                        && name in templates && templates[name] == r.value.template
      ensures forall k :: k in old(templates) ==> k in templates && templates[k] == old(templates)[k]
    {
      var name := TemplateName(templateOverride);
      var loaded := LoadTemplate(name, files);
      if loaded.Err? {
        return Err(loaded.error);
      }
      var path := ResolveOutputPath(outputPath, stem, name, docTitle);
      var list := ItemsOf(data);
      var percent := TaxPercent(data);
      var items := new Item[|list|](i requires 0 <= i < |list| => list[i]);
      assert items[..] == list;
      var calculated := CalculateTotals(items, percent);
      BackFillTotalStr(items);
      assert items[..] == FinalItems(list, percent);
      var rows := GenerateItemsHtml(items[..]);
      var view := Assemble(data, docTitle, calculated, items[..], rows);
      r := Ok(PdfJob(path, name, loaded.value, view));
    }
  }
}
