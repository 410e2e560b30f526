/**
 * The CSV import page of the frontend (frontend/src/app/dashboard/import/page.tsx):
 * the file check and preview parser run when a file is chosen, the reset
 * handler, the hand-off to the import hook, and what the page then shows.
 *
 * A chosen file is its name and the outcome of `file.text()` (`None` when
 * reading it fails). A preview row is a header-to-value map; the order in
 * which the table lists the keys is not modelled.
 */
module ImportPage {
  import opened Common
  import opened ApiClient
  import UseApi

  // ------------------------------------------------------------------
  // The preview parser
  // ------------------------------------------------------------------

  /** `lines.filter((line) => line.trim())`. */
  function NonBlank(lines: seq<string>): seq<string> {
    if lines == [] then []
    else (if Trim(lines[0]) != "" then [lines[0]] else []) + NonBlank(lines[1..])
  }

  /** The filter keeps exactly the lines that are not blank. */
  lemma {:induction false} NonBlankMembers(lines: seq<string>)
    ensures forall l :: l in NonBlank(lines) <==> l in lines && Trim(l) != ""
  {
    if lines != [] {
      NonBlankMembers(lines[1..]);
      assert lines == [lines[0]] + lines[1..];
    }
  }

  /** `map(h => h.trim())`: one header per part, none with white space at either end. */
  function TrimAll(parts: seq<string>): (r: seq<string>)
    ensures |r| == |parts| && forall k :: 0 <= k < |parts| ==> r[k] == Trim(parts[k])
    ensures forall k :: 0 <= k < |r| ==> Trimmed(r[k]) && Trim(r[k]) == r[k]
  {
    TrimEachEnds(parts);
    seq(|parts|, k requires 0 <= k < |parts| => Trim(parts[k]))
  }

  /** `values[i]?.trim() || ''`. */
  function CellAt(values: seq<string>, i: nat): string {
    if i < |values| then Trim(values[i]) else ""
  }

  /**
   * The value each header index receives: the trimmed value at that position,
   * or `''` past the end of a short line; no cell keeps white space at either end.
   */
  function Cells(values: seq<string>, n: nat): (cells: seq<string>)
    ensures |cells| == n
    ensures forall i :: 0 <= i < n && i < |values| ==> cells[i] == Trim(values[i])
    ensures forall i :: |values| <= i < n ==> cells[i] == ""
    ensures forall i :: 0 <= i < n ==> Trimmed(cells[i])
  {
    TrimEachEnds(values);
    seq(n, i requires 0 <= i < n => CellAt(values, i))
  }

  /** Assigning `keys[i] := vals[i]` in index order: a later key overwrites an earlier equal one. */
  function Assign<K, V>(keys: seq<K>, vals: seq<V>): map<K, V>
    requires |keys| == |vals|
  {
    if keys == [] then map[]
    else Assign(keys[..|keys| - 1], vals[..|keys| - 1])[keys[|keys| - 1] := vals[|keys| - 1]]
  }

  /** The key set of `Assign` is the set of keys. */
  lemma {:induction false} AssignKeys<K, V>(keys: seq<K>, vals: seq<V>)
    requires |keys| == |vals|
    ensures forall k :: k in Assign(keys, vals) <==> k in keys
  {
    if keys != [] {
      var n := |keys| - 1;
      AssignKeys(keys[..n], vals[..n]);
      assert keys == keys[..n] + [keys[n]];
    }
  }

  /** The value of `Assign` at a key is the value paired with its last occurrence. */
  lemma {:induction false} AssignValue<K, V>(keys: seq<K>, vals: seq<V>, i: nat)
    requires |keys| == |vals| && i < |keys|
    requires forall j :: i < j < |keys| ==> keys[j] != keys[i]
    ensures keys[i] in Assign(keys, vals) && Assign(keys, vals)[keys[i]] == vals[i]
  {
    var n := |keys| - 1;
    if i < n {
      var ks := keys[..n];
      assert ks[i] == keys[i];
      forall j | i < j < |ks| ensures ks[j] != ks[i] {
        assert ks[j] == keys[j];
      }
      AssignValue(ks, vals[..n], i);
      assert vals[..n][i] == vals[i];
    }
  }

  /**
   * The record `headers.forEach((header, i) => row[header] = ...)` leaves.
   */
  function RowOf(headers: seq<string>, values: seq<string>): map<string, string> {
    Assign(headers, Cells(values, |headers|))
  }

  /** The `forEach` that fills one preview row. */
  method FillRow(headers: seq<string>, values: seq<string>) returns (row: map<string, string>)
    ensures row == RowOf(headers, values)
  {
    ghost var cells := Cells(values, |headers|);
    row := map[];
    var i := 0;
    while i < |headers|
      invariant 0 <= i <= |headers|
      invariant row == Assign(headers[..i], cells[..i])
    {
      assert headers[..i + 1][..i] == headers[..i] && cells[..i + 1][..i] == cells[..i];
      assert cells[i] == CellAt(values, i);
      row := row[headers[i] := CellAt(values, i)];
      i := i + 1;
    }
    assert headers[..|headers|] == headers && cells[..|headers|] == cells;
  }

  /** The row has a key for every header and for nothing else. */
  lemma RowOfKeys(headers: seq<string>, values: seq<string>)
    ensures forall h :: h in RowOf(headers, values) <==> h in headers
  {
    AssignKeys(headers, Cells(values, |headers|));
  }

  /**
   * The value under a header is the trimmed value at the index of the LAST
   * header with that name, or `''` past the end of the line; values beyond
   * the headers are ignored.
   */
  lemma RowOfValue(headers: seq<string>, values: seq<string>, i: nat)
    requires i < |headers|
    requires forall j :: i < j < |headers| ==> headers[j] != headers[i]
    ensures headers[i] in RowOf(headers, values)
    ensures RowOf(headers, values)[headers[i]] == CellAt(values, i)
  {
    AssignValue(headers, Cells(values, |headers|), i);
  }

  function RowsOf(headers: seq<string>, lines: seq<string>): (rows: seq<map<string, string>>)
    ensures |rows| == |lines|
    ensures forall k :: 0 <= k < |lines| ==> rows[k] == RowOf(headers, Split(lines[k], ','))
  {
    if lines == [] then [] else [RowOf(headers, Split(lines[0], ','))] + RowsOf(headers, lines[1..])
  }

  /** `lines.slice(1, 6)`. */
  function PreviewLines(lines: seq<string>): (r: seq<string>)
    requires lines != []
    ensures |r| == if |lines| <= 6 then |lines| - 1 else 5
    ensures forall k :: 0 <= k < |r| ==> r[k] == lines[k + 1]
  {
    if |lines| <= 6 then lines[1..] else lines[1..6]
  }

  /**
   * The preview built from the non-blank lines of the file, or `None` when
   * there is none (reading `lines[0].split` then throws).
   */
  function PreviewOf(lines: seq<string>): Option<seq<map<string, string>>> {
    if lines == [] then None
    else Some(RowsOf(TrimAll(Split(lines[0], ',')), PreviewLines(lines)))
  }

  /** The preview built from the file text. */
  function ParsePreview(text: string): Option<seq<map<string, string>>> {
    PreviewOf(NonBlank(Split(text, '\n')))
  }

  /**
   * The rows of a preview are the lines after the header line, at most five,
   * each read against the trimmed headers.
   */
  lemma PreviewShape(lines: seq<string>)
    requires lines != []
    ensures var headers := TrimAll(Split(lines[0], ','));
            var rows := PreviewOf(lines).value;
            |rows| <= 5 && |rows| == (if |lines| <= 6 then |lines| - 1 else 5) &&
            forall k :: 0 <= k < |rows| ==> rows[k] == RowOf(headers, Split(lines[k + 1], ','))
  {
  }

  predicate AllSpace(s: string) {
    forall k :: 0 <= k < |s| ==> IsSpace(s[k])
  }

  lemma AllSpaceAppend(a: string, b: string)
    ensures AllSpace(a + b) <==> AllSpace(a) && AllSpace(b)
  {
    if AllSpace(a + b) {
      forall k | 0 <= k < |a| ensures IsSpace(a[k]) {
        assert (a + b)[k] == a[k];
      }
      forall k | 0 <= k < |b| ensures IsSpace(b[k]) {
        assert (a + b)[|a| + k] == b[k];
      }
    }
  }

  /** With a white-space separator, a `Join` is all white space exactly when every part is. */
  lemma {:induction false} JoinAllSpace(parts: seq<string>, sep: char)
    requires |parts| >= 1 && IsSpace(sep)
    ensures AllSpace(Join(parts, sep)) <==> forall p :: p in parts ==> AllSpace(p)
  {
    if |parts| > 1 {
      JoinAllSpace(parts[1..], sep);
      AllSpaceAppend(parts[0] + [sep], Join(parts[1..], sep));
      AllSpaceAppend(parts[0], [sep]);
      assert parts == [parts[0]] + parts[1..];
    }
  }

  /** Parsing fails exactly when the text is white space only; in particular for the empty file. */
  lemma ParsePreviewFailsIff(text: string)
    ensures ParsePreview(text).None? <==> AllSpace(text)
    ensures ParsePreview("").None?
  {
    var parts := Split(text, '\n');
    JoinSplit(text, '\n');
    JoinAllSpace(parts, '\n');
    NonBlankMembers(parts);
    forall l | l in parts ensures Trim(l) == "" <==> AllSpace(l) {
      TrimEmptyIff(l);
    }
    if NonBlank(parts) != [] {
      assert NonBlank(parts)[0] in NonBlank(parts);
    }
    assert Split("", '\n') == [""];
    assert AllSpace("");
  }

  // ------------------------------------------------------------------
  // The page state
  // ------------------------------------------------------------------

  /** A file in the picker: its name and the outcome of reading its text. */
  datatype ChosenFile = ChosenFile(name: string, text: Option<string>)

  class ImportPageState {
    var selectedFile: Option<string>
    var previewData: Option<seq<map<string, string>>>
    var parseError: Option<string>

    constructor()
      ensures selectedFile.None? && previewData.None? && parseError.None?
    {
      selectedFile := None;
      previewData := None;
      parseError := None;
    }

    /**
     * `handleFileSelect`: nothing for an empty pick; a name without `.csv`
     * is refused and clears the file and the preview; otherwise the file is
     * kept, the error cleared, and the preview parsed, a failure clearing it
     * again with `Failed to parse CSV file`.
     */
    method HandleFileSelect(file: Option<ChosenFile>)
      modifies this
      ensures file.None? ==>
                selectedFile == old(selectedFile) && previewData == old(previewData) && parseError == old(parseError)
      ensures file.Some? && !EndsWith(file.value.name, ".csv") ==>
                parseError == Some("Please select a CSV file") && selectedFile.None? && previewData.None?
      ensures file.Some? && EndsWith(file.value.name, ".csv") ==>
                selectedFile == Some(file.value.name) &&
                var parsed := if file.value.text.Some? then ParsePreview(file.value.text.value) else None;
                (parsed.Some? ==> previewData == parsed && parseError.None?) &&
                (parsed.None? ==> previewData.None? && parseError == Some("Failed to parse CSV file"))
    {
      if file.None? {
        return;
      }
      var f := file.value;
      if !EndsWith(f.name, ".csv") {
        parseError := Some("Please select a CSV file");
        selectedFile := None;
        previewData := None;
        return;
      }
      selectedFile := Some(f.name);
      parseError := None;
      var preview := if f.text.Some? then ParsePreview(f.text.value) else None;
      if preview.Some? {
        previewData := preview;
      } else {
        parseError := Some("Failed to parse CSV file");
        previewData := None;
      }
    }

    /** `handleReset`: clears the file, the preview and the parse error. */
    method HandleReset()
      modifies this
      ensures selectedFile.None? && previewData.None? && parseError.None?
    {
      selectedFile := None;
      previewData := None;
      parseError := None;
    }

    /**
     * `handleImport`: nothing without a selected file; otherwise the hook's
     * `importFile` runs and a rethrown error is swallowed (the hook has
     * already stored its message).
     */
    method HandleImport<T>(hook: UseApi.AsyncState<T>, token: Option<string>, call: Settled<T>)
      modifies hook
      ensures selectedFile.None? ==>
                hook.data == old(hook.data) && hook.loading == old(hook.loading) && hook.error == old(hook.error)
      ensures selectedFile.Some? && Truthy(token) && call.Resolved? ==>
                hook.data == Some(call.value) && !hook.loading && hook.error.None?
      ensures selectedFile.Some? && Truthy(token) && call.Rejected? ==>
                hook.data == old(hook.data) && !hook.loading &&
                hook.error == Some(GetApiErrorMessage(call.reason, "Import failed"))
      ensures selectedFile.Some? && !Truthy(token) ==>
                hook.data == old(hook.data) && !hook.loading && hook.error == Some("Not authenticated")
    {
      if selectedFile.None? {
        return;
      }
      var _ := UseApi.ImportFile(hook, token, call);
    }

    /**
     * "Import Another File", as written: the button is shown only once the
     * hook holds a result, and it calls `handleReset`, which leaves the hook
     * alone. The result therefore stays, and with it the Clear and Import
     * buttons stay hidden whatever file is picked next.
     */
    method ImportAnotherFile<T>(hook: UseApi.AsyncState<T>)
      requires hook.data.Some?
      modifies this
      ensures selectedFile.None? && previewData.None? && parseError.None?
      ensures hook.data == old(hook.data) && hook.data.Some?
      ensures forall f :: !ShowButtons(f, hook.data.Some?)
    {
      HandleReset();
    }

    /** After "Import Another File" and a new `.csv` pick, the page still offers no Import button. */
    method ImportAnotherFileThenSelect<T>(hook: UseApi.AsyncState<T>, file: ChosenFile)
      requires hook.data.Some? && EndsWith(file.name, ".csv")
      modifies this
      ensures selectedFile == Some(file.name)
      ensures !ShowButtons(selectedFile, hook.data.Some?)
    {
      ImportAnotherFile(hook);
      HandleFileSelect(Some(file));
    }

    /**
     * "Import Another File" as evidently intended: the file state is reset
     * and the hook's result cleared too, so the page returns to its initial
     * state and the next pick can be imported.
     */
    method ImportAnotherFileClearingResult<T>(hook: UseApi.AsyncState<T>)
      modifies this, hook
      ensures selectedFile.None? && previewData.None? && parseError.None?
      ensures hook.data.None? && !hook.loading && hook.error.None?
    {
      HandleReset();
      hook.Clear();
    }

    /** With the corrected reset, a new `.csv` pick shows the Import button again. */
    method ImportAnotherFileClearingThenSelect<T>(hook: UseApi.AsyncState<T>, file: ChosenFile)
      requires EndsWith(file.name, ".csv")
      modifies this, hook
      ensures selectedFile == Some(file.name)
      ensures ShowButtons(selectedFile, hook.data.Some?)
      ensures !hook.loading && hook.error.None?
    {
      ImportAnotherFileClearingResult(hook);
      HandleFileSelect(Some(file));
    }
  }

  // ------------------------------------------------------------------
  // What the page shows
  // ------------------------------------------------------------------

  /** `errors.slice(0, 5)`: the first five import errors. */
  function DisplayedErrors(errors: seq<string>): (shown: seq<string>)
    ensures |shown| <= 5 && |shown| <= |errors| && shown == errors[..|shown|]
    ensures |errors| <= 5 ==> shown == errors
  {
    Take(errors, 5)
  }

  /** The preview table is shown for a non-empty preview until an import result exists. */
  predicate ShowPreview(previewData: Option<seq<map<string, string>>>, importDone: bool) {
    previewData.Some? && |previewData.value| > 0 && !importDone
  }

  /** The Clear and Import buttons are shown for a selected file until an import result exists. */
  predicate ShowButtons(selectedFile: Option<string>, importDone: bool) {
    selectedFile.Some? && !importDone
  }

  /** The Import button's text. */
  function ImportLabel(loading: bool, previewData: Option<seq<map<string, string>>>): string {
    if loading then "Importing..."
    else
      var n := if previewData.Some? then |previewData.value| else 0;
      "Import " + (if n > 0 then "~" + NatToString(n) + "+ " else "") + "Records"
  }

  /** The label announces `~N+` rows exactly when a non-empty preview exists and no import is running. */
  lemma ImportLabelCases(loading: bool, previewData: Option<seq<map<string, string>>>)
    ensures loading ==> ImportLabel(loading, previewData) == "Importing..."
    ensures !loading && previewData.Some? && |previewData.value| > 0 ==>
              ImportLabel(loading, previewData) == "Import ~" + NatToString(|previewData.value|) + "+ Records"
    ensures !loading && (previewData.None? || |previewData.value| == 0) ==>
              ImportLabel(loading, previewData) == "Import Records"
  {
    if !loading && previewData.Some? && |previewData.value| > 0 {
      var n := NatToString(|previewData.value|);
      assert "Import " + ("~" + n + "+ ") + "Records" == "Import ~" + n + "+ Records";
    }
  }
}
