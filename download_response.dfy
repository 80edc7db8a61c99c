/**
  A response that prompts the user to download a file: it records the
  file's name and media type and sets the `Content-Disposition` header
  (section 4 of RFC 6266) and the `Content-Type` header.
 */
module Download {

  import opened Wrappers

  /** A header as recorded by the response: its name and its value. */
  type Header = (string, string)

  /** The text in front of the filename in the `Content-Disposition` value. */
  const DispositionPrefix := "attachment; filename=\""

  /** `attachment; filename="<filename>"`, with the filename inserted as it is. */
  function ContentDisposition(filename: string): (v: string)
    ensures |v| == |filename| + 23
    ensures v[..22] == DispositionPrefix
    ensures v[22..|v| - 1] == filename
    ensures v[|v| - 1] == '"'
  {
    DispositionPrefix + filename + "\""
  }

  /** The filename of a `Content-Disposition` value of that shape: the text
      between the 22-character prefix and the final quote. */
  function FilenameOf(v: string): Option<string>
  {
    if 23 <= |v| && v[..22] == DispositionPrefix && v[|v| - 1] == '"'
    then Some(v[22..|v| - 1])
    else None
  }

  /** Stripping the prefix and the final quote recovers the filename. */
  lemma DispositionRoundTrip(filename: string)
    ensures FilenameOf(ContentDisposition(filename)) == Some(filename)
  {
  }

  /** Every value of that shape is the header built from its filename. */
  lemma DispositionOfFilename(v: string)
    requires FilenameOf(v).Some?
    ensures ContentDisposition(FilenameOf(v).value) == v
  {
    var f := FilenameOf(v).value;
    assert v == v[..22] + v[22..|v| - 1] + [v[|v| - 1]];
  }

  /** How often a character occurs in a string. */
  function Occurrences(s: string, c: char): nat
  {
    if s == [] then 0 else Occurrences(s[..|s| - 1], c) + (if s[|s| - 1] == c then 1 else 0)
  }

  lemma {:induction false} OccurrencesConcat(s: string, t: string, c: char)
    ensures Occurrences(s + t, c) == Occurrences(s, c) + Occurrences(t, c)
    decreases |t|
  {
    if t == [] {
      assert s + t == s;
    } else {
      assert (s + t)[..|s + t| - 1] == s + t[..|t| - 1];
      OccurrencesConcat(s, t[..|t| - 1], c);
    }
  }

  /** The filename is not escaped: each of its characters appears in the
      value unchanged, so a `"` or `\` in the name reaches the header as it
      is, beside the two quotes that delimit the name. */
  lemma FilenameNotEscaped(filename: string, c: char)
    ensures Occurrences(ContentDisposition(filename), c) ==
      Occurrences(DispositionPrefix, c) + Occurrences(filename, c) + (if c == '"' then 1 else 0)
    ensures Occurrences(ContentDisposition(filename), '"') == Occurrences(filename, '"') + 2
    ensures Occurrences(ContentDisposition(filename), '\\') == Occurrences(filename, '\\')
  {
    forall d: char
      ensures Occurrences(ContentDisposition(filename), d) ==
        Occurrences(DispositionPrefix, d) + Occurrences(filename, d) + (if d == '"' then 1 else 0)
    {
      OccurrencesConcat(DispositionPrefix + filename, "\"", d);
      OccurrencesConcat(DispositionPrefix, filename, d);
      assert Occurrences("\"", d) == (if d == '"' then 1 else 0);
    }
    var s := DispositionPrefix;
    assert s == s[..21] + "\"";
    assert forall k :: 0 <= k < 21 ==> s[..21][k] != '"' && s[..21][k] != '\\';
    OccurrencesNone(s[..21], '"');
    OccurrencesNone(s[..21], '\\');
    OccurrencesConcat(s[..21], "\"", '"');
    OccurrencesConcat(s[..21], "\"", '\\');
  }

  lemma {:induction false} OccurrencesNone(s: string, c: char)
    requires forall k :: 0 <= k < |s| ==> s[k] != c
    ensures Occurrences(s, c) == 0
    decreases |s|
  {
    if s != [] {
      OccurrencesNone(s[..|s| - 1], c);
    }
  }

  class DownloadResponse {
    var filename: string
    var contentType: string
    /** The headers added so far, in call order. */
    var headers: seq<Header>

    constructor (filename: string, contentType: string)
      ensures this.filename == filename && this.contentType == contentType
      ensures headers == [("Content-Disposition", ContentDisposition(filename)),
                          ("Content-Type", contentType)]
    {
      this.filename := filename;
      this.contentType := contentType;
      headers := [];
      new;
      AddHeader("Content-Disposition", "attachment; filename=\"" + filename + "\"");
      AddHeader("Content-Type", contentType);
    }

    /** Records a header after the ones already added. */
    method AddHeader(name: string, value: string)
      modifies this
      ensures headers == old(headers) + [(name, value)]
      ensures filename == old(filename) && contentType == old(contentType)
    {
      headers := headers + [(name, value)];
    }
  }

}
