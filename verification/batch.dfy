/** `main`: every data file is rendered under every chosen template and both
    document titles. Each iteration's exception is caught, so each combination
    is attempted exactly once, whatever the others do. The outcome of one
    attempt (loading the record, `generate_pdf`, rendering and writing) is the
    abstract function `generate`. The run is observed as a log indexed like the
    loops: `log[i][j][k]` is the attempt for file `i`, template `j`, title `k`. */
module Batch {
  import opened Wrappers
  import PdfGenerator

  /** One iteration of the loop: the combination and whether it produced a PDF. */
  datatype Attempt = Attempt(jsonFile: string, template: Option<string>, docType: string, succeeded: bool)

  /** The attempt `main` makes for one combination, with its outcome. */
  function Try(generate: (string, Option<string>, string) -> bool,
               file: string, template: Option<string>, docType: string): Attempt
  {
    Attempt(file, template, docType, generate(file, template, docType))
  }

  datatype BatchResult =
    | NoDataDirectory
    | NoJsonFiles
    | Ran(log: seq<seq<seq<Attempt>>>)

  /** The document titles, estimate first. */
  const DocTypes: seq<string> := [PdfGenerator.EstimateTitle, PdfGenerator.StatementTitle]

  /** The template overrides `main` passes: every available template when the
      selection is "all", and otherwise the selection itself (`None` after a
      cancelled selection, which `generate_pdf` turns into the default template). */
  function TemplatePlan(selected: Option<string>, available: seq<string>): (plan: seq<Option<string>>)
    ensures selected == Some("all") ==>
              |plan| == |available| && forall j :: 0 <= j < |plan| ==> plan[j] == Some(available[j])
    ensures selected != Some("all") ==> plan == [selected]
  {
    if selected == Some("all") then seq(|available|, j requires 0 <= j < |available| => Some(available[j]))
    else [selected]
  }

  // ---------------------------------------------------------------------
  // What a complete run looks like
  // ---------------------------------------------------------------------

  /** One file under one template: every title once, in order, each with its own outcome. */
  ghost predicate TitlesDone(cell: seq<Attempt>, file: string, template: Option<string>, docs: seq<string>,
                             generate: (string, Option<string>, string) -> bool)
  {
    |cell| == |docs| && forall k :: 0 <= k < |docs| ==> cell[k] == Try(generate, file, template, docs[k])
  }

  /** One file: every template of the plan once, in order. */
  ghost predicate FileDone(row: seq<seq<Attempt>>, file: string, plan: seq<Option<string>>, docs: seq<string>,
                           generate: (string, Option<string>, string) -> bool)
  {
    |row| == |plan| && forall j :: 0 <= j < |plan| ==> TitlesDone(row[j], file, plan[j], docs, generate)
  }

  /** The whole run: every file once, in order. */
  ghost predicate RunDone(log: seq<seq<seq<Attempt>>>, files: seq<string>, plan: seq<Option<string>>,
                          docs: seq<string>, generate: (string, Option<string>, string) -> bool)
  {
    |log| == |files| && forall i :: 0 <= i < |files| ==> FileDone(log[i], files[i], plan, docs, generate)
  }

  /** A log satisfying `RunDone` is unique for its files, plan, titles and
      outcome function. */
  lemma RunDoneUnique(a: seq<seq<seq<Attempt>>>, b: seq<seq<seq<Attempt>>>, files: seq<string>,
                      plan: seq<Option<string>>, docs: seq<string>,
                      generate: (string, Option<string>, string) -> bool)
    requires RunDone(a, files, plan, docs, generate) && RunDone(b, files, plan, docs, generate)
    ensures a == b
  {
    forall i | 0 <= i < |files|
      ensures a[i] == b[i]
    {
      forall j | 0 <= j < |plan|
        ensures a[i][j] == b[i][j]
      {
        assert TitlesDone(a[i][j], files[i], plan[j], docs, generate);
        assert TitlesDone(b[i][j], files[i], plan[j], docs, generate);
      }
    }
  }

  /** Each combination is logged exactly where the loops put it, with the
      outcome of that combination, and the log has `|files| * |plan| * |docs|`
      entries in all. */
  lemma RunDoneAt(log: seq<seq<seq<Attempt>>>, files: seq<string>, plan: seq<Option<string>>,
                  docs: seq<string>, generate: (string, Option<string>, string) -> bool,
                  i: nat, j: nat, k: nat)
    requires RunDone(log, files, plan, docs, generate)
    requires i < |files| && j < |plan| && k < |docs|
    ensures |log| == |files| && |log[i]| == |plan| && |log[i][j]| == |docs|
    ensures log[i][j][k].jsonFile == files[i] && log[i][j][k].template == plan[j]
    ensures log[i][j][k].docType == docs[k]
    ensures log[i][j][k].succeeded == generate(files[i], plan[j], docs[k])
  {
    assert FileDone(log[i], files[i], plan, docs, generate);
    assert TitlesDone(log[i][j], files[i], plan[j], docs, generate);
  }

  // ---------------------------------------------------------------------
  // main
  // ---------------------------------------------------------------------

  /** The titles loop for one file and one template. */
  method RunTitles(file: string, template: Option<string>,
                   generate: (string, Option<string>, string) -> bool)
    returns (cell: seq<Attempt>)
    ensures TitlesDone(cell, file, template, DocTypes, generate)
  {
    var docs := DocTypes;
    cell := [];
    for k := 0 to |docs|
      invariant |cell| == k
      invariant forall k' :: 0 <= k' < k ==> cell[k'] == Try(generate, file, template, docs[k'])
    {
      var ok := generate(file, template, docs[k]);
      cell := cell + [Attempt(file, template, docs[k], ok)];
    }
  }

  /** The loops of `main` when every template was chosen: file, then template, then title. */
  method RunAllTemplates(files: seq<string>, available: seq<string>,
                         generate: (string, Option<string>, string) -> bool)
    returns (log: seq<seq<seq<Attempt>>>)
    ensures RunDone(log, files, TemplatePlan(Some("all"), available), DocTypes, generate)
  {
    var plan := TemplatePlan(Some("all"), available);
    log := [];
    for i := 0 to |files|
      invariant |log| == i
      invariant forall i' :: 0 <= i' < i ==> FileDone(log[i'], files[i'], plan, DocTypes, generate)
    {
      var row: seq<seq<Attempt>> := [];
      for j := 0 to |available|
        invariant |row| == j
        invariant forall j' :: 0 <= j' < j ==> TitlesDone(row[j'], files[i], plan[j'], DocTypes, generate)
      {
        var cell := RunTitles(files[i], Some(available[j]), generate);
        row := row + [cell];
      }
      log := log + [row];
    }
  }

  /** The loops of `main` when one template (or none) was chosen: file, then title. */
  method RunOneTemplate(files: seq<string>, selected: Option<string>,
                        generate: (string, Option<string>, string) -> bool)
    returns (log: seq<seq<seq<Attempt>>>)
    ensures RunDone(log, files, [selected], DocTypes, generate)
  {
    log := [];
    for i := 0 to |files|
      invariant |log| == i
      invariant forall i' :: 0 <= i' < i ==> FileDone(log[i'], files[i'], [selected], DocTypes, generate)
    {
      var cell := RunTitles(files[i], selected, generate);
      log := log + [[cell]];
    }
  }

  /** `main` after the template selection: `dataFiles` is the listing of the data
      directory (`None` when it does not exist), `available` the template
      listing, `selected` what the selection returned. */
  method RunBatch(dataFiles: Option<seq<string>>, selected: Option<string>, available: seq<string>,
                  generate: (string, Option<string>, string) -> bool)
    returns (result: BatchResult)
    ensures dataFiles.None? <==> result == NoDataDirectory
    ensures dataFiles == Some([]) <==> result == NoJsonFiles
    ensures dataFiles.Some? && dataFiles.value != [] ==>
              result.Ran? && RunDone(result.log, dataFiles.value, TemplatePlan(selected, available), DocTypes, generate)
  {
    if dataFiles.None? {
      return NoDataDirectory;
    }
    var files := dataFiles.value;
    if files == [] {
      return NoJsonFiles;
    }
    var log;
    if selected == Some("all") {
      log := RunAllTemplates(files, available, generate);
    } else {
      log := RunOneTemplate(files, selected, generate);
    }
    result := Ran(log);
  }

  /** Without "all", each file gets exactly the two titles, under the selection. */
  lemma SingleSelectionRun(log: seq<seq<seq<Attempt>>>, files: seq<string>, selected: Option<string>,
                           available: seq<string>, generate: (string, Option<string>, string) -> bool,
                           i: nat)
    requires selected != Some("all")
    requires RunDone(log, files, TemplatePlan(selected, available), DocTypes, generate)
    requires i < |files|
    ensures |log[i]| == 1 && |log[i][0]| == 2
    ensures log[i][0][0] == Try(generate, files[i], selected, PdfGenerator.EstimateTitle)
    ensures log[i][0][1] == Try(generate, files[i], selected, PdfGenerator.StatementTitle)
  {
    assert FileDone(log[i], files[i], [selected], DocTypes, generate);
    assert TitlesDone(log[i][0], files[i], selected, DocTypes, generate);
  }
}
