/**
 * The second result shape: a file count (`FilesScanned`) and one flat list
 * of `DetectedItem`s in enumeration order, which is what the controller reads
 * and what the unit tests assert. No scanner in this model builds it in
 * place; it is stated here only as the behaviour those tests assert, on the
 * same classification the scan loop uses.
 */
module DetectedItems {
  import opened Wrappers
  import opened Text
  import opened FileScanner

  /** One detected technology: its kind, a display name, an optional version and the evidence path. */
  datatype DetectedItem = DetectedItem(kind: string, name: string, version: Option<string>, evidence: string)

  /** The result as the controller sees it. */
  datatype ScanView = ScanView(filesScanned: int, items: seq<DetectedItem>)

  const CSharpKind := "CSharp"
  const NodeKind := "Node.js"
  const DockerKind := "Docker"

  /** The `Kind` string the tests expect for each list of the scanner. */
  function KindOf(c: Category): string {
    match c
    case CsProj => CSharpKind
    case PackageJson => NodeKind
    case Dockerfile => DockerKind
    case Unmatched => ""
  }

  /**
   * The item a file of category `c` yields, if any: a C# project is named
   * after its file name without the `.csproj` extension, the other two kinds
   * carry fixed names, and the evidence is always the full path.
   */
  function ItemOf(path: string, c: Category): Option<DetectedItem> {
    var name := FileName(path);
    match c
    case CsProj => Some(DetectedItem(CSharpKind, if |name| >= 7 then name[..|name| - 7] else name, None, path))
    case PackageJson => Some(DetectedItem(NodeKind, "Node.js Project", None, path))
    case Dockerfile => Some(DetectedItem(DockerKind, "Docker", None, path))
    case Unmatched => None
  }

  /** The items of an enumeration under a classification, in enumeration order. */
  function Items(paths: seq<string>, classify: string -> Category): seq<DetectedItem>
    decreases |paths|
  {
    if paths == [] then []
    else
      var last := paths[|paths| - 1];
      Items(paths[..|paths| - 1], classify)
        + (match ItemOf(last, classify(last)) case Some(item) => [item] case None => [])
  }

  /** The evidence paths of the items of one kind, in order. */
  function EvidenceOf(items: seq<DetectedItem>, kind: string): seq<string>
    decreases |items|
  {
    if items == [] then []
    else
      var last := items[|items| - 1];
      EvidenceOf(items[..|items| - 1], kind) + (if last.kind == kind then [last.evidence] else [])
  }

  /**
   * The view of a scan: a missing directory or a failed enumeration yields no
   * files and no items; the view has no error field, so the enumeration's
   * error message (which the scan loop records in `Error`) is dropped here.
   * Otherwise every file is counted and every classified file yields one item.
   */
  function ViewOf(dir: Directory): (v: ScanView)
    ensures !dir.present ==> v == ScanView(0, [])
    ensures v.filesScanned >= |v.items|
  {
    if dir.present && dir.listing.Files? then
      var paths := dir.listing.paths;
      ItemsCount(paths, Classify);
      ScanView(|paths|, Items(paths, Classify))
    else ScanView(0, [])
  }

  /** One item per classified file: the item count is the total length of the three lists, never above the file count. */
  lemma {:induction false} ItemsCount(paths: seq<string>, classify: string -> Category)
    ensures |Items(paths, classify)| == |Select(paths, classify, CsProj)| + |Select(paths, classify, PackageJson)|
                                        + |Select(paths, classify, Dockerfile)|
    ensures |Items(paths, classify)| <= |paths|
    decreases |paths|
  {
    if paths != [] {
      ItemsCount(paths[..|paths| - 1], classify);
      SelectPartition(paths, classify);
    }
  }

  /** The evidence of the items of each kind is exactly the scanner's list for that category. */
  lemma {:induction false} EvidenceIsCategoryList(paths: seq<string>, classify: string -> Category, c: Category)
    requires c != Unmatched
    ensures EvidenceOf(Items(paths, classify), KindOf(c)) == Select(paths, classify, c)
    decreases |paths|
  {
    if paths != [] {
      var init := paths[..|paths| - 1];
      var last := paths[|paths| - 1];
      EvidenceIsCategoryList(init, classify, c);
      var items := Items(init, classify);
      match ItemOf(last, classify(last))
      case None =>
        assert Items(paths, classify) == items;
        assert Select(paths, classify, c) == Select(init, classify, c);
      case Some(item) =>
        var all := items + [item];
        assert all[..|all| - 1] == items;
    }
  }

  /** The name `TestProject.csproj` is classified as a C# project. */
  lemma TestProjectNameClassified()
    ensures ClassifyName("TestProject.csproj") == CsProj
  {
    EqualsIgnoreCaseReflexive(".csproj");
    assert "TestProject.csproj"[11..] == ".csproj";
  }

  /** `TestProject.csproj` in any directory keeps its name as file name and is classified as a C# project. */
  lemma TestProjectClassified(dir: string)
    requires |dir| > 0 && IsSeparator(dir[|dir| - 1])
    ensures FileName(dir + "TestProject.csproj") == "TestProject.csproj"
    ensures Classify(dir + "TestProject.csproj") == CsProj
  {
    FileNameAfterSeparator(dir, "TestProject.csproj");
    TestProjectNameClassified();
  }

  /** `TestProject.csproj` in any directory yields one C# item named `TestProject` whose evidence is its path. */
  lemma CsProjItem(dir: string)
    requires |dir| > 0 && IsSeparator(dir[|dir| - 1])
    ensures var path := dir + "TestProject.csproj";
      Items([path], Classify) == [DetectedItem(CSharpKind, "TestProject", None, path)]
  {
    var path := dir + "TestProject.csproj";
    TestProjectClassified(dir);
    assert "TestProject.csproj"[..11] == "TestProject";
    assert ItemOf(path, CsProj) == Some(DetectedItem(CSharpKind, "TestProject", None, path));
    assert [path][..0] == [];
  }
}
