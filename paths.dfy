/** Path composition: the part of os.path.join the exporter relies on, the ancestors
    os.makedirs creates, and where templates are looked up. */
module Paths {
  import opened ExportTypes

  /** The template directory get_template uses when none is given. */
  const DefaultTemplateDirectory: Path := "data/export/"

  /** The separator os.path.join puts after `a`: none when `a` is empty or already
      ends with a slash. */
  function Separator(a: Path): Path {
    if a == [] || a[|a| - 1] == '/' then "" else "/"
  }

  /** os.path.join(a, b) for a relative `b`. */
  function Join(a: Path, b: Path): Path {
    a + Separator(a) + b
  }

  /** The joined path starts with `a`, ends with `b`, and has a slash between them
      whenever `a` is non-empty. */
  lemma JoinParts(a: Path, b: Path)
    ensures var r := Join(a, b);
            |a| + |b| <= |r| <= |a| + |b| + 1 &&
            r[..|a|] == a && r[|r| - |b|..] == b &&
            (a != [] ==> r[|r| - |b| - 1] == '/')
  {
    var r := Join(a, b);
    assert r[..|a|] == a;
    assert r[|r| - |b|..] == b;
  }

  /** Joining onto the same base never maps two different names to one path. */
  lemma JoinInjective(a: Path, b1: Path, b2: Path)
    requires Join(a, b1) == Join(a, b2)
    ensures b1 == b2
  {
    var n := |a + Separator(a)|;
    assert b1 == Join(a, b1)[n..];
    assert b2 == Join(a, b2)[n..];
  }

  /** `q` is a proper ancestor directory of `p`: a non-empty prefix of `p` that is
      followed by a slash in `p`. */
  predicate IsAncestor(q: Path, p: Path) {
    0 < |q| < |p| && p[..|q|] == q && p[|q|] == '/'
  }

  /** The directories os.makedirs(p) brings into existence when all are missing:
      `p` itself and every proper ancestor of it. */
  function Lineage(p: Path): (r: set<Path>)
    ensures forall q :: q in r <==> q == p || IsAncestor(q, p)
  {
    var ancestors := set i | 0 < i < |p| && p[i] == '/' :: p[..i];
    forall q | IsAncestor(q, p) ensures q in ancestors {
      assert p[..|q|] in ancestors;
    }
    {p} + ancestors
  }

  /** The path get_template reads: os.path.join(directory, format, name). */
  function TemplatePath(directory: Path, format: string, name: string): Path {
    Join(Join(directory, format), name)
  }

  /** The default layout gives <data/export/>/<format>/<name>. */
  lemma DefaultTemplateLayout(format: string, name: string)
    requires format != [] && format[|format| - 1] != '/'
    ensures TemplatePath(DefaultTemplateDirectory, format, name) == "data/export/" + format + "/" + name
  {
  }

  /** Template lookup is scoped by format: two different plain format names (non-empty,
      no slash) never resolve any two template names to the same path. */
  lemma {:induction false} TemplatesAreFormatScoped(directory: Path, f1: string, f2: string, n1: string, n2: string)
    requires f1 != f2
    requires f1 != [] && f2 != []
    requires forall i :: 0 <= i < |f1| ==> f1[i] != '/'
    requires forall i :: 0 <= i < |f2| ==> f2[i] != '/'
    ensures TemplatePath(directory, f1, n1) != TemplatePath(directory, f2, n2)
  {
    var base := directory + Separator(directory);
    var p1 := TemplatePath(directory, f1, n1);
    var p2 := TemplatePath(directory, f2, n2);
    assert Join(directory, f1) == base + f1;
    assert Join(directory, f2) == base + f2;
    assert p1 == base + f1 + "/" + n1;
    assert p2 == base + f2 + "/" + n2;
    if |f1| < |f2| {
      assert p1[|base| + |f1|] == '/';
      assert p2[|base| + |f1|] == f2[|f1|];
    } else if |f2| < |f1| {
      assert p2[|base| + |f2|] == '/';
      assert p1[|base| + |f2|] == f1[|f2|];
    } else {
      var i :| 0 <= i < |f1| && f1[i] != f2[i];
      assert p1[|base| + i] == f1[i];
      assert p2[|base| + i] == f2[i];
    }
  }
}
