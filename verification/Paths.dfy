// Write scopes as normalised, case-folded lexical paths.
module Paths {

  datatype Path = Path(absolute: bool, parts: seq<string>)

  // `first in second.parents`
  predicate IsParent(first: Path, second: Path) {
    && first.absolute == second.absolute
    && |first.parts| < |second.parts|
    && first.parts <= second.parts
  }

  // `paths_overlap`: a relative and an absolute path are never known to be apart.
  predicate Overlap(first: Path, second: Path) {
    if first.absolute != second.absolute then true
    else first == second || IsParent(first, second) || IsParent(second, first)
  }

  // A file written under a scope.
  predicate Below(file: Path, scope: Path) {
    file.absolute == scope.absolute && scope.parts <= file.parts
  }

  lemma OverlapIsSymmetric(a: Path, b: Path)
    ensures Overlap(a, b) == Overlap(b, a)
  {
  }

  // For scopes that can be compared at all, non-overlap is exactly the absence of any
  // file that lies under both.
  lemma OverlapIffSharedFile(a: Path, b: Path)
    requires a.absolute == b.absolute
    ensures Overlap(a, b) <==> exists file :: Below(file, a) && Below(file, b)
  {
    if Overlap(a, b) {
      var file := if IsParent(a, b) then b else a;
      assert Below(file, a) && Below(file, b);
    }
    if exists file :: Below(file, a) && Below(file, b) {
      var file :| Below(file, a) && Below(file, b);
      if |a.parts| <= |b.parts| {
        assert a.parts == file.parts[..|a.parts|] == b.parts[..|a.parts|];
      } else {
        assert b.parts == file.parts[..|b.parts|] == a.parts[..|b.parts|];
      }
    }
  }
}
