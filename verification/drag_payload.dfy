/**
 * What a drag-start puts on the drag's data channel: the JSON list of
 * absolute paths, and for a single-file drag the `DownloadURL` hint
 * `<mime>:<file name>:<page URL + path>`.
 */
module DragPayload {
  import opened Wrappers
  import opened Sequences
  import opened EntryPaths

  /** The mime type used when the resolver knows none. */
  const DefaultMime: string := "application/octet-stream"

  /**
   * The list that is serialised as the `application/json` payload. A drag
   * carries a single file when at most one entry is focused: then the list is
   * the dragged file alone, otherwise every focused entry in the order of the
   * selection.
   */
  function JsonPaths(entryUrl: string, file: string, focused: seq<string>): (r: seq<string>)
    ensures |focused| <= 1 ==> r == [Join(entryUrl, file)]
    ensures |focused| > 1 ==>
      |r| == |focused| && forall i :: 0 <= i < |r| ==> r[i] == Join(entryUrl, focused[i])
  {
    if |focused| <= 1 then [Join(entryUrl, file)]
    else JoinAll(entryUrl, focused)
  }

  /**
   * With a single focused entry that is not the dragged file, the payload
   * names the dragged file and not the focused one.
   */
  lemma SingleFilePayloadIgnoresSelection(entryUrl: string, file: string, focused: seq<string>)
    requires |focused| == 1 && focused[0] != file
    ensures JsonPaths(entryUrl, file, focused) != [Join(entryUrl, focused[0])]
  {
    JoinInjective(entryUrl, file, focused[0]);
  }

  /** A multi-file payload repeats no path exactly when the selection repeats no name. */
  lemma MultiFilePayloadDistinct(entryUrl: string, file: string, focused: seq<string>)
    requires |focused| > 1
    ensures Distinct(JsonPaths(entryUrl, file, focused)) <==> Distinct(focused)
  {
    JoinAllDistinct(entryUrl, focused);
  }

  /** `getMimeType(file) || "application/octet-stream"`: an empty answer also falls back. */
  function MimeOrDefault(mime: Option<string>): (r: string)
    ensures r != ""
    ensures mime.Some? && mime.value != "" ==> r == mime.value
    ensures (mime.None? || mime.value == "") ==> r == DefaultMime
  {
    if mime.Some? && mime.value != "" then mime.value else DefaultMime
  }

  /**
   * The `DownloadURL` string for a single-file drag. It starts with the
   * resolved mime type and a colon, ends with the page URL followed by the
   * entry path, and always holds the two colons a receiver splits at.
   */
  function DownloadUrl(mime: Option<string>, file: string, href: string, entryUrl: string): (r: string)
    ensures var m := MimeOrDefault(mime); |r| > |m| && r[..|m| + 1] == m + ":"
    ensures var url := href + Join(entryUrl, file); |r| >= |url| && r[|r| - |url|..] == url
  {
    var m, url := MimeOrDefault(mime), href + Join(entryUrl, file);
    var r := m + ":" + file + ":" + url;
    assert r == (m + ":") + (file + ":" + url);
    assert r == (m + ":" + file + ":") + url;
    r
  }

  /** The three parts of a `DownloadURL` hint. */
  datatype DownloadHint = DownloadHint(mime: string, name: string, url: string)

  /** Splits `s` at its first colon, if it has one. */
  function SplitAtColon(s: string): (r: Option<(string, string)>)
    ensures r.None? <==> ':' !in s
    ensures r.Some? ==> s == r.value.0 + ":" + r.value.1 && ':' !in r.value.0
  {
    var i := IndexOf(s, ':');
    if i < 0 then None
    else
      assert s == s[..i] + ":" + s[i + 1..];
      Some((s[..i], s[i + 1..]))
  }

  /** Splitting finds the colon that follows a colon-free prefix. */
  lemma SplitAfterPrefix(p: string, t: string)
    requires ':' !in p
    ensures SplitAtColon(p + ":" + t) == Some((p, t))
  {
    var s := p + ":" + t;
    assert s == p + [':'] + t;
    IndexOfAfterPrefix(p, ':', t);
    assert s[..|p|] == p && s[|p| + 1..] == t;
  }

  /** A colon-free prefix of `s` ends at or before any colon of `s`. */
  lemma ColonFreePrefix(x: string, s: string, j: nat)
    requires |x| <= |s| && s[..|x|] == x && ':' !in x
    requires j < |s| && s[j] == ':'
    ensures |x| <= j
  {
  }

  /** A string with two separating colons always splits into three parts. */
  lemma TwoColonsParse(a: string, b: string, c: string)
    ensures ParseDownloadUrl(a + ":" + b + ":" + c).Some?
  {
    var s := a + ":" + b + ":" + c;
    var p := |a| + 1 + |b|;
    assert s[|a|] == ':' && s[p] == ':';
    var x, rest := SplitAtColon(s).value.0, SplitAtColon(s).value.1;
    assert s == x + ":" + rest;
    assert s[..|x|] == x;
    ColonFreePrefix(x, s, |a|);
    assert rest == s[|x| + 1..];
    assert rest[p - |x| - 1] == ':';
  }

  /**
   * How a receiver reads a `DownloadURL` string: the mime type up to the first
   * colon, the file name up to the next one, the URL after it.
   */
  function ParseDownloadUrl(s: string): (r: Option<DownloadHint>)
    ensures r.Some? ==> s == r.value.mime + ":" + (r.value.name + ":" + r.value.url)
    ensures r.Some? ==> ':' !in r.value.mime && ':' !in r.value.name
  {
    var first := SplitAtColon(s);
    if first.None? then None
    else
      var second := SplitAtColon(first.value.1);
      if second.None? then None
      else Some(DownloadHint(first.value.0, second.value.0, second.value.1))
  }

  /**
   * Whatever the file name holds, the hint has the two colons a receiver
   * splits at, so it always reads as three parts.
   */
  lemma DownloadUrlAlwaysParses(mime: Option<string>, file: string, href: string, entryUrl: string)
    ensures ParseDownloadUrl(DownloadUrl(mime, file, href, entryUrl)).Some?
  {
    var m, url := MimeOrDefault(mime), href + Join(entryUrl, file);
    assert DownloadUrl(mime, file, href, entryUrl) == m + ":" + file + ":" + url;
    TwoColonsParse(m, file, url);
  }

  /** A hint whose first two parts are colon-free reads back part for part. */
  lemma HintRoundTrip(m: string, name: string, url: string)
    requires ':' !in m && ':' !in name
    ensures ParseDownloadUrl(m + ":" + name + ":" + url) == Some(DownloadHint(m, name, url))
  {
    var s, rest := m + ":" + name + ":" + url, name + ":" + url;
    assert s == m + ":" + rest;
    SplitAfterPrefix(m, rest);
    assert SplitAtColon(s) == Some((m, rest));
    SplitAfterPrefix(name, url);
    assert SplitAtColon(rest) == Some((name, url));
  }

  /**
   * The hint reads back as the resolved mime type, the file name and the
   * page URL followed by the entry path, provided neither the mime type nor
   * the file name contains a colon.
   */
  lemma DownloadUrlRoundTrip(mime: Option<string>, file: string, href: string, entryUrl: string)
    requires mime.Some? ==> ':' !in mime.value
    requires ':' !in file
    ensures ParseDownloadUrl(DownloadUrl(mime, file, href, entryUrl))
         == Some(DownloadHint(MimeOrDefault(mime), file, href + Join(entryUrl, file)))
  {
    var m, url := MimeOrDefault(mime), href + Join(entryUrl, file);
    assert ':' !in m by {
      assert ':' !in DefaultMime;
    }
    assert DownloadUrl(mime, file, href, entryUrl) == m + ":" + file + ":" + url;
    HintRoundTrip(m, file, url);
  }

  /** Over plain strings: the name `a:b` splits after its `a`. */
  lemma ColonNameSplits(m: string, url: string)
    requires ':' !in m
    ensures ParseDownloadUrl(m + ":" + "a:b" + ":" + url) == Some(DownloadHint(m, "a", "b:" + url))
  {
    assert m + ":" + "a:b" + ":" + url == m + ":" + "a" + ":" + ("b:" + url);
    HintRoundTrip(m, "a", "b:" + url);
  }

  /**
   * A colon in the file name makes the hint ambiguous: the name `a:b` reads
   * back as `a`, and the rest of it moves into the URL part.
   */
  lemma ColonInNameSplitsHint(href: string, entryUrl: string)
    ensures ParseDownloadUrl(DownloadUrl(None, "a:b", href, entryUrl))
         == Some(DownloadHint(DefaultMime, "a", "b:" + (href + Join(entryUrl, "a:b"))))
  {
    var url := href + Join(entryUrl, "a:b");
    assert ':' !in DefaultMime;
    assert DownloadUrl(None, "a:b", href, entryUrl) == DefaultMime + ":" + "a:b" + ":" + url;
    ColonNameSplits(DefaultMime, url);
  }
}
