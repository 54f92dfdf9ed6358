/** The client-side CSV export of the capture dashboard: a one-column file
    whose header is `"extracted_text"` and whose single data field is the
    extracted text, quoted as in section 2, rule 7 of RFC 4180 (the field is
    enclosed in double quotes and every double quote inside it is doubled).
    Lines are separated by LF, not the CRLF of rule 1. The download is named
    after the source image with its last extension replaced by `.csv`. */
module CsvExport {
  import opened Common

  const Quote: char := '"'
  const Header: string := "\"extracted_text\""
  const FallbackName: string := "extracted-data"

  /** The number of double quotes in `s`. */
  function CountQuotes(s: string): (n: nat)
    ensures n <= |s|
  {
    if s == [] then 0 else (if s[0] == Quote then 1 else 0) + CountQuotes(s[1..])
  }

  /** `s.replace(/"/g, '""')`: every double quote is doubled, every other
      character is kept, in order. */
  function EscapeQuotes(s: string): (r: string)
    ensures |r| == |s| + CountQuotes(s)
    ensures IsEscapedBody(r)
  {
    if s == [] then []
    else if s[0] == Quote then [Quote, Quote] + EscapeQuotes(s[1..])
    else [s[0]] + EscapeQuotes(s[1..])
  }

  /** The body of an RFC 4180 escaped field: double quotes occur only in
      adjacent pairs. */
  predicate IsEscapedBody(r: string)
    decreases |r|
  {
    if r == [] then true
    else if r[0] == Quote then |r| >= 2 && r[1] == Quote && IsEscapedBody(r[2..])
    else IsEscapedBody(r[1..])
  }

  /** The reader's side of rule 7: each `""` collapses back to one `"`. */
  function CollapseQuotes(r: string): (s: string)
    decreases |r|
  {
    if r == [] then []
    else if |r| >= 2 && r[0] == Quote && r[1] == Quote then [Quote] + CollapseQuotes(r[2..])
    else [r[0]] + CollapseQuotes(r[1..])
  }

  /** Collapsing the doubled quotes gives back the original text. */
  lemma {:induction false} CollapseEscape(s: string)
    ensures CollapseQuotes(EscapeQuotes(s)) == s
  {
    if s != [] {
      var rest := EscapeQuotes(s[1..]);
      CollapseEscape(s[1..]);
      if s[0] == Quote {
        var r := [Quote, Quote] + rest;
        assert r[2..] == rest;
        assert CollapseQuotes(r) == [Quote] + CollapseQuotes(rest);
      } else {
        var r := [s[0]] + rest;
        assert r[1..] == rest;
        assert CollapseQuotes(r) == [s[0]] + CollapseQuotes(rest);
      }
    }
  }

  /** Every well-formed escaped body is the escape of its collapse, so
      `EscapeQuotes` is a bijection onto the well-formed bodies. */
  lemma {:induction false} EscapeCollapse(r: string)
    requires IsEscapedBody(r)
    ensures EscapeQuotes(CollapseQuotes(r)) == r
  {
    if r != [] {
      if r[0] == Quote {
        EscapeCollapse(r[2..]);
        var c := CollapseQuotes(r[2..]);
        assert CollapseQuotes(r) == [Quote] + c;
        assert ([Quote] + c)[1..] == c;
        assert r == [Quote, Quote] + r[2..];
      } else {
        EscapeCollapse(r[1..]);
        var c := CollapseQuotes(r[1..]);
        assert CollapseQuotes(r) == [r[0]] + c;
        assert ([r[0]] + c)[1..] == c;
        assert r == [r[0]] + r[1..];
      }
    }
  }

  /** The file body: the header line, LF, then the quoted data field. */
  function CsvContent(text: string): (content: string)
    ensures |content| == |Header| + 3 + |text| + CountQuotes(text)
    ensures content[..|Header|] == Header && content[|Header|] == '\n'
    ensures content[|Header| + 1] == Quote && content[|content| - 1] == Quote
  {
    Header + "\n" + [Quote] + EscapeQuotes(text) + [Quote]
  }

  /** A reader of the one-field file this export writes: the header line,
      LF, then one quoted field whose body is well formed. */
  function ParseCsv(content: string): (text: Option<string>)
  {
    var n := |Header| + 2;
    if |content| >= n + 1 && content[..|Header|] == Header && content[|Header|] == '\n'
       && content[|Header| + 1] == Quote && content[|content| - 1] == Quote
       && IsEscapedBody(content[n..|content| - 1])
    then Some(CollapseQuotes(content[n..|content| - 1]))
    else None
  }

  /** Reading the exported file gives back exactly the extracted text. */
  lemma CsvRoundTrip(text: string)
    ensures ParseCsv(CsvContent(text)) == Some(text)
  {
    var c := CsvContent(text);
    var n := |Header| + 2;
    assert c[n..|c| - 1] == EscapeQuotes(text);
    CollapseEscape(text);
  }

  /** Position `k` starts what `/\.[^/.]+$/` matches in `name`: a dot followed
      by one or more characters, none of them `.` or `/`, up to the end. */
  predicate IsExtensionAt(name: string, k: int)
  {
    0 <= k < |name| - 1 && name[k] == '.'
    && forall j :: k < j < |name| ==> name[j] != '.' && name[j] != '/'
  }

  /** Scans leftwards from `j` for the dot that opens the extension. */
  function DotBefore(name: string, j: int): (k: Option<nat>)
    requires -1 <= j < |name|
    decreases j + 1
  {
    if j < 0 then None
    else if name[j] == '.' then (if j < |name| - 1 then Some(j) else None)
    else if name[j] == '/' then None
    else DotBefore(name, j - 1)
  }

  lemma {:induction false} DotBeforeSpec(name: string, j: int)
    requires -1 <= j < |name|
    requires forall i :: j < i < |name| ==> name[i] != '.' && name[i] != '/'
    ensures DotBefore(name, j).Some? ==> IsExtensionAt(name, DotBefore(name, j).value)
    ensures DotBefore(name, j).None? ==> forall k :: !IsExtensionAt(name, k)
  {
    if j >= 0 && name[j] != '.' && name[j] != '/' {
      DotBeforeSpec(name, j - 1);
    } else if j >= 0 {
      forall k | IsExtensionAt(name, k) ensures DotBefore(name, j).Some? && k == j {
      }
    }
  }

  /** The start of the extension the regular expression strips, if any. */
  function ExtensionStart(name: string): (k: Option<nat>)
    ensures k.Some? ==> IsExtensionAt(name, k.value)
    ensures k.None? ==> forall i :: !IsExtensionAt(name, i)
  {
    DotBeforeSpec(name, |name| - 1);
    DotBefore(name, |name| - 1)
  }

  /** At most one position starts a strippable extension. */
  lemma ExtensionUnique(name: string, k1: int, k2: int)
    requires IsExtensionAt(name, k1) && IsExtensionAt(name, k2)
    ensures k1 == k2
  {
    assert name[k1] == '.' && name[k2] == '.';
  }

  /** `name.replace(/\.[^/.]+$/, "")`. */
  function StripExtension(name: string): (r: string)
    ensures (exists k :: IsExtensionAt(name, k)) ==> |r| < |name| - 1 && IsExtensionAt(name, |r|) && r == name[..|r|]
    ensures (forall k :: !IsExtensionAt(name, k)) ==> r == name
  {
    match ExtensionStart(name)
    case Some(k) => name[..k]
    case None => name
  }

  /** `.replace(...) || 'extracted-data'` on the optional source name, then `.csv`. */
  function DownloadName(sourceName: Option<string>): (file: string)
    ensures sourceName.Some? && StripExtension(sourceName.value) != "" ==> file == StripExtension(sourceName.value) + ".csv"
    ensures sourceName.None? || StripExtension(sourceName.value) == "" ==> file == FallbackName + ".csv"
  {
    var base := if sourceName.Some? then StripExtension(sourceName.value) else "";
    (if base != "" then base else FallbackName) + ".csv"
  }

  /** What `handleDownloadCsv` hands to the browser. */
  datatype Download = Download(fileName: string, content: string)

  /** `handleDownloadCsv`: nothing when there is no text or it is empty,
      otherwise the CSV content and the derived file name. */
  function Export(extractedText: Option<string>, sourceName: Option<string>): (d: Option<Download>)
    ensures d.None? <==> !Truthy(extractedText)
    ensures d.Some? ==> ParseCsv(d.value.content) == extractedText
    ensures d.Some? ==> d.value.fileName == DownloadName(sourceName)
  {
    if !Truthy(extractedText) then None
    else
      CsvRoundTrip(extractedText.value);
      Some(Download(DownloadName(sourceName), CsvContent(extractedText.value)))
  }

  lemma StripExamples()
    ensures StripExtension("a.tar.gz") == "a.tar"
    ensures StripExtension("noext") == "noext"
    ensures StripExtension("dir.v2/file") == "dir.v2/file"
    ensures DownloadName(Some(".jpg")) == "extracted-data.csv"
    ensures DownloadName(Some("scan.png")) == "scan.csv"
  {
    assert IsExtensionAt("a.tar.gz", 5);
    assert IsExtensionAt(".jpg", 0);
    assert IsExtensionAt("scan.png", 4);
    var e := "dir.v2/file";
    assert DotBefore(e, 6).None? && DotBefore(e, 8) == DotBefore(e, 6);
    assert DotBefore(e, 10) == DotBefore(e, 8);
  }
}
