/**
 * Paths of file-manager entries: a container URL joined with a file name.
 * The hook builds them in two ways: with `path.join` for payloads and icon
 * styles, and with the template `${entryUrl}/${entryFile}` when it looks up
 * icon positions for the dragged-once test.
 */
module EntryPaths {
  import opened Sequences

  /**
   * `path.join(dir, file)` for a directory path and one file name that holds no
   * separator, `.` or `..` segment: the path starts with the directory, ends
   * with the file name, and a single `/` separates the two parts.
   */
  function Join(dir: string, file: string): (p: string)
    ensures |dir| + |file| <= |p| <= |dir| + 1 + |file|
    ensures p[..|dir|] == dir && p[|p| - |file|..] == file
    ensures dir != "" ==> p[|p| - |file| - 1] == '/'
  {
    if dir == "" then file
    else if dir[|dir| - 1] == '/' then dir + file
    else dir + "/" + file
  }

  /** The key `${entryUrl}/${entryFile}` used for the icon-position lookup. */
  function TemplateKey(dir: string, file: string): (k: string)
    ensures |k| == |dir| + 1 + |file|
    ensures k[..|dir|] == dir && k[|dir|] == '/' && k[|dir| + 1..] == file
  {
    dir + "/" + file
  }

  lemma CommonPrefix(p: string, a: string, b: string)
    requires p + a == p + b
    ensures a == b
  {
    assert a == (p + a)[|p|..];
    assert b == (p + b)[|p|..];
  }

  /** Within one container, different file names give different paths. */
  lemma JoinInjective(dir: string, f: string, g: string)
    ensures Join(dir, f) == Join(dir, g) <==> f == g
  {
    if Join(dir, f) == Join(dir, g) {
      if dir == "" {
      } else if dir[|dir| - 1] == '/' {
        CommonPrefix(dir, f, g);
      } else {
        assert dir + "/" + f == dir + ("/" + f);
        assert dir + "/" + g == dir + ("/" + g);
        CommonPrefix(dir, "/" + f, "/" + g);
        CommonPrefix("/", f, g);
      }
    }
  }

  /**
   * The template key agrees with `path.join` exactly when the container URL is
   * non-empty and does not end in `/`; for the root container `/` they differ.
   */
  lemma TemplateKeyMatchesJoin(dir: string, file: string)
    ensures TemplateKey(dir, file) == Join(dir, file) <==> dir != "" && dir[|dir| - 1] != '/'
  {
  }

  /** `files.map((f) => join(dir, f))`. */
  function JoinAll(dir: string, files: seq<string>): (r: seq<string>)
    ensures |r| == |files|
    ensures forall i :: 0 <= i < |r| ==> r[i] == Join(dir, files[i])
  {
    if files == [] then []
    else [Join(dir, files[0])] + JoinAll(dir, files[1..])
  }

  /** Joining keeps distinct file names distinct. */
  lemma JoinAllDistinct(dir: string, files: seq<string>)
    ensures Distinct(JoinAll(dir, files)) <==> Distinct(files)
  {
    var r := JoinAll(dir, files);
    forall i, j | 0 <= i < j < |files|
      ensures r[i] == r[j] <==> files[i] == files[j]
    {
      JoinInjective(dir, files[i], files[j]);
    }
  }
}
