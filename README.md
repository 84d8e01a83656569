# Codebase Technology Scanner — a Dafny model of its core

The Codebase Technology Scanner is a small web API. It walks a directory tree
and reports the files that mark three technologies:

- `*.csproj` files, for C# projects;
- `package.json` files, for Node.js projects;
- `Dockerfile`s, for Docker.

This project models and proves the two pieces of the backend that carry logic:

- **The scan** (`FileScanner.ScanDirectoryAsync`). It is modelled as the method
  `FileScanner.ScanDirectory`. That method takes the filesystem as an input:
  - whether the directory exists;
  - what the recursive enumeration returns: a list of full paths, or an
    exception with its message.

  The method runs the source's loop. It classifies each path by its file name
  through the same else-if chain, and it appends the path to one of three
  lists. The loop invariants tie each list to `Select` / `Matching`, an
  order-preserving filter that serves as the specification.
- **The endpoint** (`ScanController.Scan`). It is modelled as a total function
  from two inputs to a response and a count of scanner invocations:
  - the request, which may be null, and its path, which may also be null;
  - what the scanner does when called: return a result, throw an
    `ArgumentException`, or throw any other exception.

  The response has a status and a body. The body is either the scanner's
  result or a `ProblemDetails` with a title and a detail. The constructor's
  null guards are modelled as `NewController`.

Supporting modules:

- `Text` models `Path.GetFileName`, ordinal ignore-case `Equals`/`EndsWith` and
  `string.IsNullOrWhiteSpace`.
- `Wrappers` holds `Option` and `Result`.

**Result shape.** The repository shows two incompatible shapes for the scan result:

- `FileScanner.cs` fills `TotalFiles`, `CsProjFiles`, `PackageJsonFiles`,
  `Dockerfiles` and `Error`.
- `ScanResult.cs`, the controller and the unit tests use `FilesScanned` plus one
  list of `DetectedItem`s, produced by a `ScanAsync(ScanRequest)` method. No file
  in this model implements that method.

The model follows `FileScanner.cs` as written: `FileScanner.ScanResult` has
per-category lists and an optional error. The item-list shape is kept in module
`DetectedItems` only as the behaviour the unit tests assert. It is defined on
the same classification, and `EvidenceIsCategoryList` proves that it agrees with
the per-category lists. The controller reads that shape, because its code reads
`FilesScanned` and `Items`.

**Behaviour of `FileScanner.cs` as written:**

- A directory that does not exist yields `Error = "Directory not found"`
  (`FileScanner.cs:15`), with a zero count and empty lists.
- An exception during enumeration is caught and its message is stored in
  `Error` (`FileScanner.cs:43-46`). It is never propagated.

## Model

| member | source | states |
|---|---|---|
| `FileScanner.ScanDirectory` | backend/src/CodebaseTechnologyScanner/Services/FileScanner.cs:7-49 | missing directory: error "Directory not found", count 0, all lists empty; enumeration throws: error is the exception's message, nothing counted; otherwise no error, `totalFiles` is the number of enumerated files and each list is the order-preserving selection of the paths of its category; in every case the three lists together hold at most `totalFiles` paths |
| `Text.FileName` | backend/src/CodebaseTechnologyScanner/Services/FileScanner.cs:26 | the file name is a suffix of the path, contains no separator, and is preceded by a separator whenever it is shorter than the path |
| `Text.FileNameAfterSeparator` | backend/src/CodebaseTechnologyScanner/Services/FileScanner.cs:26 | for a directory path ending in a separator followed by a separator-free name, the file name is exactly that name |
| `Text.EqualsIgnoreCaseAt` | backend/src/CodebaseTechnologyScanner/Services/FileScanner.cs:32 | ignore-case equality holds iff the lengths agree and the case-folded characters agree at every position |
| `FileScanner.RulesDisjoint` | backend/src/CodebaseTechnologyScanner/Services/FileScanner.cs:28-39 | no file name satisfies two of the three rules |
| `FileScanner.ClassifyByOwnRule` | backend/src/CodebaseTechnologyScanner/Services/FileScanner.cs:28-39 | a path is classified `.csproj` / `package.json` / `Dockerfile` iff its file name meets that rule, so the else-if order does not change the outcome |
| `FileScanner.ClassifyIgnoresCase` | backend/src/CodebaseTechnologyScanner/Services/FileScanner.cs:28-39 | two paths whose file names are equal ignoring case are classified alike |
| `FileScanner.CsProjRuleIgnoresCase` | backend/src/CodebaseTechnologyScanner/Services/FileScanner.cs:28 | the `.csproj` suffix rule gives the same answer for names equal ignoring case |
| `FileScanner.WholeNameRulesIgnoreCase` | backend/src/CodebaseTechnologyScanner/Services/FileScanner.cs:32-36 | the `package.json` and `Dockerfile` rules give the same answer for names equal ignoring case |
| `FileScanner.SelectStep` | backend/src/CodebaseTechnologyScanner/Services/FileScanner.cs:24-40 | scanning one more file appends it to the list of its own category and leaves the other lists unchanged |
| `FileScanner.SelectMembership` | backend/src/CodebaseTechnologyScanner/Services/FileScanner.cs:24-40 | a path is in the list of a category iff it was enumerated and classified into that category (full path stored) |
| `FileScanner.SelectExclusive` | backend/src/CodebaseTechnologyScanner/Services/FileScanner.cs:28-39 | no path is in the lists of two different categories |
| `FileScanner.SelectPartition` | backend/src/CodebaseTechnologyScanner/Services/FileScanner.cs:21-40 | the three lists plus the unmatched files together account for every enumerated file exactly once |
| `FileScanner.SelectSubsequence` | backend/src/CodebaseTechnologyScanner/Services/FileScanner.cs:24-40 | each list is a subsequence of the enumeration, so enumeration order is kept |
| `FileScanner.SelectAppend` | backend/src/CodebaseTechnologyScanner/Services/FileScanner.cs:24-40 | scanning a concatenated enumeration gives the concatenated lists |
| `FileScanner.UnmatchedFileChangesNoList` | backend/src/CodebaseTechnologyScanner/Services/FileScanner.cs:24-40 | inserting a file that matches no rule anywhere in the enumeration leaves every list unchanged |
| `FileScanner.MarkerNamesClassified` | backend/tests/CodebaseTechnologyScanner.Tests/Services/FileScannerTests.cs:162-164 | `Project.csproj`, `package.json` and `Dockerfile` each fall in their own category |
| `FileScanner.MarkerFilesClassified` | backend/tests/CodebaseTechnologyScanner.Tests/Services/FileScannerTests.cs:154-182 | the three marker files under any directory fall in their own categories |
| `FileScanner.SelectThree` | backend/src/CodebaseTechnologyScanner/Services/FileScanner.cs:24-40 | scanning three files adds each of them, in order, to the list of its own category |
| `FileScanner.PermutationOfThree` | backend/tests/CodebaseTechnologyScanner.Tests/Services/FileScannerTests.cs:154-182 | an enumeration of three distinct files, in any order, has length three, lists each file once and nothing else |
| `FileScanner.SelectOneOfThree` | backend/src/CodebaseTechnologyScanner/Services/FileScanner.cs:24-40 | of three distinct files, one that is alone in its category is the only path in that category's list |
| `FileScanner.SelectPermutedThree` | backend/src/CodebaseTechnologyScanner/Services/FileScanner.cs:24-40 | three files of three different categories, enumerated in any order, give a one-element list for each category |
| `FileScanner.ThreeMarkerFiles` | backend/tests/CodebaseTechnologyScanner.Tests/Services/FileScannerTests.cs:154-182 | a directory holding exactly the three marker files, enumerated in any order, yields exactly one full path in each list |
| `DetectedItems.ViewOf` | backend/tests/CodebaseTechnologyScanner.Tests/Services/FileScannerTests.cs:50-63 | test-asserted item shape: a missing directory gives 0 files and no items, and the file count is never below the item count |
| `DetectedItems.ItemsCount` | backend/src/CodebaseTechnologyScanner/Models/ScanResult.cs:16-21 | test-asserted item shape: there is one item per classified file, so the item count is the total length of the three lists and never exceeds the file count |
| `DetectedItems.EvidenceIsCategoryList` | backend/src/CodebaseTechnologyScanner/Models/DetectedItem.cs:11-26 | test-asserted item shape: for each kind, the evidence paths of the items of that kind are exactly the scanner's list for the matching category |
| `DetectedItems.TestProjectNameClassified` | backend/tests/CodebaseTechnologyScanner.Tests/Services/FileScannerTests.cs:74 | the name `TestProject.csproj` is classified as a C# project |
| `DetectedItems.TestProjectClassified` | backend/tests/CodebaseTechnologyScanner.Tests/Services/FileScannerTests.cs:74 | `TestProject.csproj` under any directory has that file name and is classified as a C# project |
| `DetectedItems.CsProjItem` | backend/tests/CodebaseTechnologyScanner.Tests/Services/FileScannerTests.cs:65-93 | test-asserted item shape: `TestProject.csproj` in any directory yields exactly one item, of kind "CSharp", named "TestProject", with the full path as evidence |
| `ScanController.NewController` | backend/src/CodebaseTechnologyScanner/Controllers/ScanController.cs:14-15 | construction succeeds iff both collaborators are present and keeps them; a null scanner is reported first as "fileScanner", then a null logger as "logger" |
| `ScanController.Scan` | backend/src/CodebaseTechnologyScanner/Controllers/ScanController.cs:29-88 | status is always 200, 400 or 500; an error body carries the response status; the scanner is invoked exactly once for a valid request and never otherwise; 200 happens iff the request is valid and the scanner returns a result whose fields can be read, and the body is then the scanner's own result |
| `ScanController.NullRequestRejected` | backend/src/CodebaseTechnologyScanner/Controllers/ScanController.cs:32-41 | a null request gives 400 "Invalid Request" without invoking the scanner, whatever the scanner would do (it is checked before the path) |
| `ScanController.BlankPathRejected` | backend/src/CodebaseTechnologyScanner/Controllers/ScanController.cs:44-53 | a null, empty or all-white-space path gives 400 "Invalid Path" without invoking the scanner |
| `ScanController.TestBlankPaths` | backend/tests/CodebaseTechnologyScanner.Tests/Controllers/ScanControllerTests.cs:72-104 | the paths "" and "   " are rejected with title "Invalid Path" |
| `ScanController.ResultPassedThrough` | backend/src/CodebaseTechnologyScanner/Controllers/ScanController.cs:59-66 | for a valid request the scanner is invoked once and its result is returned unchanged with 200 |
| `ScanController.ArgumentErrorIsBadRequest` | backend/src/CodebaseTechnologyScanner/Controllers/ScanController.cs:68-77 | an `ArgumentException` gives 400 "Invalid Argument" whose detail is the exception's message |
| `ScanController.OtherErrorHidesMessage` | backend/src/CodebaseTechnologyScanner/Controllers/ScanController.cs:78-87 | any other exception gives 500 "Internal Server Error" with a fixed detail; the response is the same for every exception message |
| `ScanController.NullResultIsServerError` | backend/src/CodebaseTechnologyScanner/Controllers/ScanController.cs:61-64 | a null result, or a result whose `Items` is null, fails in the logging call and gets the same 500 "Internal Server Error" response as any other exception |

## Left out

- Filesystem I/O (`Directory.Exists`, `Directory.GetFiles` with `SearchOption.AllDirectories` and the `*.*` pattern): the existence flag and the enumeration outcome are inputs. The order of the enumeration is whatever the input sequence says.
- Exceptions raised inside the classification loop: only the enumeration is modelled as able to throw. `Path.GetFileName` and list appends are taken not to throw.
- `Task.Run`, `async`/`await` and `ConfigureAwait`: they wrap sequential code in a task, so the model is sequential.
- Logging in the controller, and the `StartedAt` timestamp: a side effect and a wall-clock value.
- The result object's in-place updates: the fields of the fresh, unshared `ScanResult` object are local variables of `FileScanner.ScanDirectory`, assembled into a value at the end. Aliasing cannot arise.
- `Text.FileName`: treats both `/` and `\` as separators, which is the Windows behaviour of `Path.GetFileName`. On Unix only `/` separates.
- `Text.FoldCase`: folds ASCII letters only. Non-ASCII characters whose upper-case mapping differs are compared exactly, not case-insensitively.
- `ScanAsync(ScanRequest)`: the method the controller calls. No file of this model implements it; its item shape (`DetectedItems`) is stated only as the behaviour the unit tests assert. Its `ArgumentNullException` for a null request or path is not modelled.
- `DetectedItems.ItemOf`: no scanner implementation names the items. The Node.js name "Node.js Project" comes from the controller test fixture at `backend/tests/CodebaseTechnologyScanner.Tests/Controllers/ScanControllerTests.cs:183`. The Docker name "Docker" is a modelling choice with no backend counterpart; the only fixture that names a Docker item (`frontend/techscanner-ui/src/pages/Results.test.tsx:15`) uses "Container".
- `ScanController.Scan`: takes the scanner's outcome for this request as an input instead of calling an `IFileScanner` object.
- `Program.cs` (dependency injection, CORS, Swagger, health checks), JSON model binding and serialisation, and the whole front end: hosting and UI with no logic to verify.
