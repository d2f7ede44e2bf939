/**
 * Downloading a stored dataset as the bytes the server holds.  The dataset
 * preview, the campaign details page and the campaigns list all choose the
 * MIME type and file extension the same way (spreadsheet, then CSV, by type
 * or by name, then an old Excel name, else a generic binary type with no
 * extension), and add the extension only to a name without a dot.  They
 * differ only in the name used when the dataset has none.
 */
module RawDownload {
  import opened JsText
  import opened Wrappers

  /** The kinds of file the download distinguishes. */
  datatype FileKind = XlsxKind | CsvKind | XlsKind | OtherKind

  const XlsxMime := "application/vnd.openxmlformats-officedocument.spreadsheetml.sheet"
  const CsvMime := "text/csv"
  const XlsMime := "application/vnd.ms-excel"
  const OtherMime := "application/octet-stream"

  /** The kind chosen from `dataset_type?.toLowerCase()` and `dataset_name?.toLowerCase() || ''`. */
  function KindOf(datasetType: Option<string>, datasetName: Option<string>): FileKind {
    var t := if datasetType.Some? then Some(ToLower(datasetType.value)) else None;
    var n := if datasetName.Some? then ToLower(datasetName.value) else "";
    if t == Some("xlsx") || EndsWith(n, ".xlsx") then XlsxKind
    else if t == Some("csv") || EndsWith(n, ".csv") then CsvKind
    else if EndsWith(n, ".xls") then XlsKind
    else OtherKind
  }

  function Mime(k: FileKind): string {
    match k
    case XlsxKind => XlsxMime
    case CsvKind => CsvMime
    case XlsKind => XlsMime
    case OtherKind => OtherMime
  }

  function Extension(k: FileKind): string {
    match k
    case XlsxKind => ".xlsx"
    case CsvKind => ".csv"
    case XlsKind => ".xls"
    case OtherKind => ""
  }

  /** The choice is made in priority order: a spreadsheet by type or name wins over CSV, and CSV over
      an old Excel name; only a dataset that matches none gets the generic type. */
  lemma KindPriority(datasetType: Option<string>, datasetName: Option<string>)
    ensures datasetType == Some("xlsx") ==> KindOf(datasetType, datasetName) == XlsxKind
    ensures datasetType == Some("csv") && !(datasetName.Some? && EndsWith(ToLower(datasetName.value), ".xlsx")) ==>
              KindOf(datasetType, datasetName) == CsvKind
    ensures KindOf(datasetType, datasetName) == XlsKind ==>
              datasetName.Some? && EndsWith(ToLower(datasetName.value), ".xls")
    ensures KindOf(datasetType, datasetName) == OtherKind <==> Extension(KindOf(datasetType, datasetName)) == []
  {
    assert ToLower("xlsx") == "xlsx";
    assert ToLower("csv") == "csv";
  }

  /** The extension is added only to a name without a dot. */
  function WithExtension(name: string, k: FileKind): (r: string)
    ensures '.' in name ==> r == name
    ensures '.' !in name ==> |r| == |name| + |Extension(k)| && r[..|name|] == name && EndsWith(r, Extension(k))
  {
    if '.' in name then name else name + Extension(k)
  }

  /** Every known kind's name ends up holding a dot, and a name that already has one is kept whole. */
  lemma NamedFileHasDot(name: string, k: FileKind)
    requires k != OtherKind || '.' in name
    ensures '.' in WithExtension(name, k)
  {
    if '.' !in name {
      var r := WithExtension(name, k);
      assert r[|name|] == '.';
    }
  }

  /** `dataset_name || fallback`. */
  function NameOr(datasetName: Option<string>, fallback: string): (r: string)
    ensures datasetName.Some? && datasetName.value != [] ==> r == datasetName.value
    ensures datasetName.None? || datasetName.value == [] ==> r == fallback
  {
    if datasetName.Some? && datasetName.value != [] then datasetName.value else fallback
  }

  /** A byte. */
  newtype Byte = x: int | 0 <= x < 256

  /** `new Uint8Array(n)` filled with `binary.charCodeAt(i)`; an assignment to a byte array keeps the low 8 bits. */
  method BytesOf(binary: string) returns (bytes: array<Byte>)
    ensures fresh(bytes) && bytes.Length == |binary|
    ensures forall i :: 0 <= i < |binary| ==> bytes[i] as int == (binary[i] as int) % 256
  {
    bytes := new Byte[|binary|];
    for i := 0 to |binary|
      invariant forall j :: 0 <= j < i ==> bytes[j] as int == (binary[j] as int) % 256
    {
      bytes[i] := ((binary[i] as int) % 256) as Byte;
    }
  }

  /** A file handed to the browser. */
  datatype RawFile = RawFile(fileName: string, mime: string, bytes: seq<Byte>)

  /** The download of a dataset's content: nothing without content or when the content does not decode
      (`decoded` is what `atob` yields on it), otherwise the decoded bytes under the chosen name and type. */
  method DownloadRaw(content: string, decoded: Option<string>, datasetType: Option<string>,
                     datasetName: Option<string>, fallbackName: string) returns (file: Option<RawFile>)
    ensures content == [] || decoded.None? ==> file.None?
    ensures content != [] && decoded.Some? ==>
              var k := KindOf(datasetType, datasetName);
              && file.Some?
              && file.value.fileName == WithExtension(NameOr(datasetName, fallbackName), k)
              && file.value.mime == Mime(k)
              && |file.value.bytes| == |decoded.value|
              && forall i :: 0 <= i < |decoded.value| ==> file.value.bytes[i] as int == (decoded.value[i] as int) % 256
  {
    if content == [] || decoded.None? {
      return None;
    }
    var bytes := BytesOf(decoded.value);
    var k := KindOf(datasetType, datasetName);
    file := Some(RawFile(WithExtension(NameOr(datasetName, fallbackName), k), Mime(k), bytes[..]));
  }
}
