/**
 * `FileScanner.ScanDirectoryAsync`: counts the files found under a directory
 * and sorts each path, by its file name alone, into at most one of three
 * lists (`.csproj` projects, `package.json` manifests, `Dockerfile`s).
 *
 * The filesystem is an input: whether the directory exists, and what the
 * recursive enumeration yields — a list of full paths, or an exception
 * with its message.
 */
module FileScanner {
  import opened Wrappers
  import opened Text

  /** The list a path is appended to, if any. */
  datatype Category = CsProj | PackageJson | Dockerfile | Unmatched

  /** The outcome of `Directory.GetFiles(path, "*.*", SearchOption.AllDirectories)`. */
  datatype Listing = Files(paths: seq<string>) | Throws(message: string)

  /** What the filesystem says about the scanned directory. */
  datatype Directory = Directory(present: bool, listing: Listing)

  /** The scanner's result object: file count, one list per category, and an optional error message. */
  datatype ScanResult = ScanResult(
    totalFiles: int,
    csProjFiles: seq<string>,
    packageJsonFiles: seq<string>,
    dockerfiles: seq<string>,
    error: Option<string>)

  const DirectoryNotFound := "Directory not found"

  predicate IsCsProjName(name: string) {
    EndsWithIgnoreCase(name, ".csproj")
  }

  predicate IsPackageJsonName(name: string) {
    EqualsIgnoreCase(name, "package.json")
  }

  predicate IsDockerfileName(name: string) {
    EqualsIgnoreCase(name, "Dockerfile")
  }

  /** The else-if chain of the scan loop: the first rule the file name meets wins. */
  function ClassifyName(name: string): Category {
    if IsCsProjName(name) then CsProj
    else if IsPackageJsonName(name) then PackageJson
    else if IsDockerfileName(name) then Dockerfile
    else Unmatched
  }

  /** A path is classified by its file name alone. */
  function Classify(path: string): Category {
    ClassifyName(FileName(path))
  }

  /** The paths of `paths` that `classify` puts in category `c`, in enumeration order. */
  function Select(paths: seq<string>, classify: string -> Category, c: Category): (r: seq<string>)
    ensures |r| <= |paths|
    decreases |paths|
  {
    if paths == [] then []
    else
      var last := paths[|paths| - 1];
      Select(paths[..|paths| - 1], classify, c) + (if classify(last) == c then [last] else [])
  }

  /** The list the scan loop builds for category `c`. */
  function Matching(paths: seq<string>, c: Category): seq<string> {
    Select(paths, Classify, c)
  }

  /** `s` occurs in `t` in order, possibly with gaps. */
  predicate IsSubsequence(s: seq<string>, t: seq<string>)
    decreases |t|
  {
    if s == [] then true
    else if t == [] then false
    else if s[|s| - 1] == t[|t| - 1] then IsSubsequence(s[..|s| - 1], t[..|t| - 1])
    else IsSubsequence(s, t[..|t| - 1])
  }

  /**
   * The scan. A missing directory gives the soft error "Directory not found"
   * with nothing counted; an enumeration that throws is captured as the
   * error message; otherwise every file is counted and each list is the
   * order-preserving selection of the paths of its category. No exception
   * escapes: every case returns a result.
   */
  method ScanDirectory(dir: Directory) returns (result: ScanResult)
    ensures !dir.present ==> result == ScanResult(0, [], [], [], Some(DirectoryNotFound))
    ensures dir.present && dir.listing.Throws? ==>
      result == ScanResult(0, [], [], [], Some(dir.listing.message))
    ensures dir.present && dir.listing.Files? ==>
      var files := dir.listing.paths;
      result == ScanResult(|files|, Matching(files, CsProj), Matching(files, PackageJson),
                           Matching(files, Dockerfile), None)
    ensures |result.csProjFiles| + |result.packageJsonFiles| + |result.dockerfiles| <= result.totalFiles
  {
    var totalFiles := 0;
    var csProjFiles: seq<string> := [];
    var packageJsonFiles: seq<string> := [];
    var dockerfiles: seq<string> := [];
    var error: Option<string> := None;
    if !dir.present {
      error := Some(DirectoryNotFound);
    } else {
      match dir.listing
      case Throws(message) =>
        error := Some(message);
      case Files(files) =>
        totalFiles := |files|;
        for i := 0 to |files|
          invariant csProjFiles == Matching(files[..i], CsProj)
          invariant packageJsonFiles == Matching(files[..i], PackageJson)
          invariant dockerfiles == Matching(files[..i], Dockerfile)
        {
          var file := files[i];
          var fileName := FileName(file);
          SelectStep(files, i, Classify);
          if IsCsProjName(fileName) {
            csProjFiles := csProjFiles + [file];
          } else if IsPackageJsonName(fileName) {
            packageJsonFiles := packageJsonFiles + [file];
          } else if IsDockerfileName(fileName) {
            dockerfiles := dockerfiles + [file];
          }
        }
        assert files[..|files|] == files;
        SelectPartition(files, Classify);
    }
    result := ScanResult(totalFiles, csProjFiles, packageJsonFiles, dockerfiles, error);
  }

  /** Scanning one more file appends it to the list of its own category and to no other. */
  lemma SelectStep(paths: seq<string>, i: nat, classify: string -> Category)
    requires i < |paths|
    ensures forall c ::
              Select(paths[..i + 1], classify, c)
                == Select(paths[..i], classify, c) + (if classify(paths[i]) == c then [paths[i]] else [])
  {
    assert paths[..i + 1][..i] == paths[..i];
  }

  /** A path is selected for `c` exactly when it was enumerated and classified as `c`. */
  lemma {:induction false} SelectMembership(paths: seq<string>, classify: string -> Category, c: Category, p: string)
    ensures p in Select(paths, classify, c) <==> p in paths && classify(p) == c
    decreases |paths|
  {
    if paths != [] {
      var init := paths[..|paths| - 1];
      SelectMembership(init, classify, c, p);
      assert paths == init + [paths[|paths| - 1]];
    }
  }

  /** No path is selected for two categories: a classification puts each file in at most one list. */
  lemma SelectExclusive(paths: seq<string>, classify: string -> Category, c1: Category, c2: Category, p: string)
    requires c1 != c2
    ensures !(p in Select(paths, classify, c1) && p in Select(paths, classify, c2))
  {
    SelectMembership(paths, classify, c1, p);
    SelectMembership(paths, classify, c2, p);
  }

  /** Every enumerated file is accounted for exactly once across the four categories. */
  lemma {:induction false} SelectPartition(paths: seq<string>, classify: string -> Category)
    ensures |Select(paths, classify, CsProj)| + |Select(paths, classify, PackageJson)|
            + |Select(paths, classify, Dockerfile)| + |Select(paths, classify, Unmatched)| == |paths|
    decreases |paths|
  {
    if paths != [] {
      SelectPartition(paths[..|paths| - 1], classify);
    }
  }

  /** Each selection is a subsequence of the enumeration: filtering keeps the enumeration order. */
  lemma {:induction false} SelectSubsequence(paths: seq<string>, classify: string -> Category, c: Category)
    ensures IsSubsequence(Select(paths, classify, c), paths)
    decreases |paths|
  {
    if paths != [] {
      var init := paths[..|paths| - 1];
      var last := paths[|paths| - 1];
      var m := Select(init, classify, c);
      SelectSubsequence(init, classify, c);
      if classify(last) == c {
        assert Select(paths, classify, c) == m + [last];
        assert (m + [last])[..|m|] == m;
      } else {
        assert Select(paths, classify, c) == m;
        if m != [] {
          SelectMembership(init, classify, c, m[|m| - 1]);
          assert m[|m| - 1] != last;
        }
      }
    }
  }

  /** Selection distributes over concatenation of enumerations. */
  lemma {:induction false} SelectAppend(s: seq<string>, t: seq<string>, classify: string -> Category, c: Category)
    ensures Select(s + t, classify, c) == Select(s, classify, c) + Select(t, classify, c)
    decreases |t|
  {
    if t == [] {
      assert s + t == s;
    } else {
      var init := t[..|t| - 1];
      assert (s + t)[..|s + t| - 1] == s + init;
      SelectAppend(s, init, classify, c);
    }
  }

  /** A file that matches no rule, wherever it is enumerated, changes none of the three lists. */
  lemma UnmatchedFileChangesNoList(s: seq<string>, x: string, t: seq<string>, classify: string -> Category, c: Category)
    requires classify(x) == Unmatched && c != Unmatched
    ensures Select(s + [x] + t, classify, c) == Select(s + t, classify, c)
  {
    SelectAppend(s + [x], t, classify, c);
    SelectAppend(s, [x], classify, c);
    SelectAppend(s, t, classify, c);
    assert [x][..0] == [];
  }

  /** No file name satisfies two of the three rules. */
  lemma RulesDisjoint(name: string)
    ensures !(IsCsProjName(name) && IsPackageJsonName(name))
    ensures !(IsCsProjName(name) && IsDockerfileName(name))
    ensures !(IsPackageJsonName(name) && IsDockerfileName(name))
  {
    if IsCsProjName(name) {
      EqualsIgnoreCaseAt(name[|name| - 7..], ".csproj");
      assert name[|name| - 7..][0] == name[|name| - 7];
      assert FoldCase(name[|name| - 7]) == '.';
    }
    if IsPackageJsonName(name) {
      EqualsIgnoreCaseAt(name, "package.json");
      assert FoldCase(name[5]) == 'g';
    }
    if IsDockerfileName(name) {
      EqualsIgnoreCaseAt(name, "Dockerfile");
      assert FoldCase(name[3]) == 'k';
    }
  }

  /**
   * Because the rules are disjoint, the order of the else-if chain does not
   * matter: each category holds exactly the paths whose file name its own rule
   * accepts.
   */
  lemma ClassifyByOwnRule(path: string)
    ensures Classify(path) == CsProj <==> IsCsProjName(FileName(path))
    ensures Classify(path) == PackageJson <==> IsPackageJsonName(FileName(path))
    ensures Classify(path) == Dockerfile <==> IsDockerfileName(FileName(path))
  {
    RulesDisjoint(FileName(path));
  }

  /** The `.csproj` suffix rule accepts a name exactly when it accepts any other spelling of it. */
  lemma CsProjRuleIgnoresCase(a: string, b: string)
    requires EqualsIgnoreCase(a, b)
    ensures IsCsProjName(a) <==> IsCsProjName(b)
  {
    EqualsIgnoreCaseAt(a, b);
    if |a| >= 7 {
      var k := |a| - 7;
      EqualsIgnoreCaseSuffix(a, b, k);
      EqualsIgnoreCaseSymmetric(a[k..], b[k..]);
      if IsCsProjName(a) {
        EqualsIgnoreCaseTransitive(b[k..], a[k..], ".csproj");
      }
      if IsCsProjName(b) {
        EqualsIgnoreCaseTransitive(a[k..], b[k..], ".csproj");
      }
    }
  }

  /** The two whole-name rules accept a name exactly when they accept any other spelling of it. */
  lemma WholeNameRulesIgnoreCase(a: string, b: string)
    requires EqualsIgnoreCase(a, b)
    ensures IsPackageJsonName(a) <==> IsPackageJsonName(b)
    ensures IsDockerfileName(a) <==> IsDockerfileName(b)
  {
    EqualsIgnoreCaseSymmetric(a, b);
    if IsPackageJsonName(a) { EqualsIgnoreCaseTransitive(b, a, "package.json"); }
    if IsPackageJsonName(b) { EqualsIgnoreCaseTransitive(a, b, "package.json"); }
    if IsDockerfileName(a) { EqualsIgnoreCaseTransitive(b, a, "Dockerfile"); }
    if IsDockerfileName(b) { EqualsIgnoreCaseTransitive(a, b, "Dockerfile"); }
  }

  /** Classification depends on the file name only up to (ASCII) case. */
  lemma ClassifyIgnoresCase(p: string, q: string)
    requires EqualsIgnoreCase(FileName(p), FileName(q))
    ensures Classify(p) == Classify(q)
  {
    CsProjRuleIgnoresCase(FileName(p), FileName(q));
    WholeNameRulesIgnoreCase(FileName(p), FileName(q));
  }

  /** The three marker names land in their own categories. */
  lemma MarkerNamesClassified()
    ensures ClassifyName("Project.csproj") == CsProj
    ensures ClassifyName("package.json") == PackageJson
    ensures ClassifyName("Dockerfile") == Dockerfile
  {
    EqualsIgnoreCaseReflexive(".csproj");
    assert "Project.csproj"[7..] == ".csproj";
    EqualsIgnoreCaseReflexive("package.json");
    EqualsIgnoreCaseReflexive("Dockerfile");
    RulesDisjoint("package.json");
    RulesDisjoint("Dockerfile");
  }

  /** The three marker files, under any directory, land in their own categories. */
  lemma MarkerFilesClassified(dir: string)
    requires |dir| > 0 && IsSeparator(dir[|dir| - 1])
    ensures Classify(dir + "Project.csproj") == CsProj
    ensures Classify(dir + "package.json") == PackageJson
    ensures Classify(dir + "Dockerfile") == Dockerfile
  {
    FileNameAfterSeparator(dir, "Project.csproj");
    FileNameAfterSeparator(dir, "package.json");
    FileNameAfterSeparator(dir, "Dockerfile");
    MarkerNamesClassified();
  }

  /** Selecting from three files selects from each in turn. */
  lemma SelectThree(x: string, y: string, z: string, classify: string -> Category, c: Category)
    ensures Select([x, y, z], classify, c)
      == (if classify(x) == c then [x] else []) + (if classify(y) == c then [y] else [])
         + (if classify(z) == c then [z] else [])
  {
    assert [x, y, z][..2] == [x, y] && [x, y][..1] == [x] && [x][..0] == [];
    assert Select([x], classify, c) == (if classify(x) == c then [x] else []);
    assert Select([x, y], classify, c) == Select([x], classify, c) + (if classify(y) == c then [y] else []);
  }

  /** A sequence with the same elements as three distinct values lists each of them once. */
  lemma PermutationOfThree(files: seq<string>, a: string, b: string, c: string)
    requires a != b && a != c && b != c
    requires multiset(files) == multiset{a, b, c}
    ensures |files| == 3
    ensures files[0] != files[1] && files[0] != files[2] && files[1] != files[2]
    ensures forall k :: 0 <= k < 3 ==> files[k] == a || files[k] == b || files[k] == c
  {
    assert |files| == |multiset(files)| == 3;
    var x, y, z := files[0], files[1], files[2];
    assert files == [x, y, z];
    assert multiset{x, y, z} == multiset{a, b, c};
    assert x in multiset{a, b, c} && y in multiset{a, b, c} && z in multiset{a, b, c};
  }

  /** Of three distinct files, the one alone in its category is selected alone. */
  lemma SelectOneOfThree(x: string, y: string, z: string, m: string, classify: string -> Category, k: Category)
    requires x != y && x != z && y != z
    requires (classify(x) == k <==> x == m) && (classify(y) == k <==> y == m) && (classify(z) == k <==> z == m)
    requires m == x || m == y || m == z
    ensures Select([x, y, z], classify, k) == [m]
  {
    SelectThree(x, y, z, classify, k);
  }

  /**
   * Three files of three different categories, enumerated in any order, give
   * a one-element list for each of those categories.
   */
  lemma SelectPermutedThree(files: seq<string>, a: string, b: string, c: string, classify: string -> Category)
    requires multiset(files) == multiset{a, b, c}
    requires classify(a) == CsProj && classify(b) == PackageJson && classify(c) == Dockerfile
    ensures Select(files, classify, CsProj) == [a]
    ensures Select(files, classify, PackageJson) == [b]
    ensures Select(files, classify, Dockerfile) == [c]
  {
    PermutationOfThree(files, a, b, c);
    var x, y, z := files[0], files[1], files[2];
    assert files == [x, y, z];
    assert a in multiset(files) && b in multiset(files) && c in multiset(files);
    SelectOneOfThree(x, y, z, a, classify, CsProj);
    SelectOneOfThree(x, y, z, b, classify, PackageJson);
    SelectOneOfThree(x, y, z, c, classify, Dockerfile);
  }

  /**
   * A directory holding exactly `Project.csproj`, `package.json` and
   * `Dockerfile`, under any directory path and enumerated in any order,
   * yields exactly one full path per list.
   */
  lemma ThreeMarkerFiles(dir: string, files: seq<string>)
    requires |dir| > 0 && IsSeparator(dir[|dir| - 1])
    requires multiset(files) == multiset{dir + "Project.csproj", dir + "package.json", dir + "Dockerfile"}
    ensures Matching(files, CsProj) == [dir + "Project.csproj"]
    ensures Matching(files, PackageJson) == [dir + "package.json"]
    ensures Matching(files, Dockerfile) == [dir + "Dockerfile"]
  {
    MarkerFilesClassified(dir);
    SelectPermutedThree(files, dir + "Project.csproj", dir + "package.json", dir + "Dockerfile", Classify);
  }
}
