/** The path convention shared by every versioned schema class: a schema is
    stored under `<schemas root>/file_formats/<VERSION>/<FILENAME>`. The schemas
    root itself is defined outside this model, so it is a parameter here. */
module SchemaBase {

  /** A path as its sequence of segments. */
  type Path = seq<string>

  /** A string that is one path segment as it stands: not empty, not `.`, and
      without a separator (such a string would be split or dropped when joined). */
  predicate PlainSegment(s: string) {
    s != "" && s != "." && '/' !in s
  }

  /** The path of a schema: it begins with the root and ends in
      `file_formats/<version>/<filename>`. */
  function SchemaPath(root: Path, version: string, filename: string): (p: Path)
    ensures |p| == |root| + 3
    ensures p[..|root|] == root
    ensures p[|root|..] == ["file_formats", version, filename]
  {
    root + ["file_formats", version, filename]
  }

  /** Under one root, the path determines the version and the filename: two
      schemas whose version and filename are plain segments share a path only
      when they share both. */
  lemma SchemaPathInjective(root: Path, v1: string, f1: string, v2: string, f2: string)
    requires PlainSegment(v1) && PlainSegment(f1) && PlainSegment(v2) && PlainSegment(f2)
    requires SchemaPath(root, v1, f1) == SchemaPath(root, v2, f2)
    ensures v1 == v2 && f1 == f2
  {
    var p1, p2 := SchemaPath(root, v1, f1), SchemaPath(root, v2, f2);
    assert p1[|root| + 1] == v1 && p2[|root| + 1] == v2;
    assert p1[|root| + 2] == f1 && p2[|root| + 2] == f2;
  }
}
